/** The staff-user ("usuario") handlers. Only staff (`role === "USER"`)
    may create or list users; a user record may be read, updated or deleted
    by staff or by the user it belongs to. The permission check comes before
    the table is consulted. */
module Users {
  import opened Common
  import opened Jwt

  /** A row of the user table; `senha` holds the password hash. */
  datatype Usuario = Usuario(id: int, nome: string, email: string, senha: string, role: string)

  type Table = map<int, Usuario>

  /** The table's unique constraint on `email`. */
  predicate EmailsUnique(usuarios: Table)
  {
    forall a, b :: a in usuarios && b in usuarios && usuarios[a].email == usuarios[b].email ==> a == b
  }

  /** `findUnique({ where: { email } })`. */
  function FindByEmail(usuarios: Table, email: string): (r: Option<Usuario>)
    requires EmailsUnique(usuarios)
    ensures r.Some? <==> exists k :: k in usuarios && usuarios[k].email == email
    ensures r.Some? ==> exists k :: k in usuarios && usuarios[k] == r.value && r.value.email == email
  {
    if exists k :: k in usuarios && usuarios[k].email == email then
      var k :| k in usuarios && usuarios[k].email == email;
      Some(usuarios[k])
    else None
  }

  /** `createUser`: staff only; the new user's role is always `USER`,
      whatever `role` the body carries. A missing password or a taken email
      ends in 500. */
  function CreateUser(auth: Option<Payload>, nome: string, email: string, senha: Option<string>,
                      role: Option<string>, hash: string -> string, usuarios: Table, id: int)
    : (r: (Reply<Usuario>, Table))
    requires id !in usuarios && EmailsUnique(usuarios)
    ensures !IsStaff(auth) ==> r == (Fail(403, "Only users can create new users"), usuarios)
    ensures r.0.Ok? <==> IsStaff(auth) && senha.Some? && forall k :: k in usuarios ==> usuarios[k].email != email
    ensures r.0.Fail? ==> r.1 == usuarios
    ensures r.0.Ok? ==> r.0 == Ok(201, Usuario(id, nome, email, hash(senha.value), USER_ROLE))
                        && r.1 == usuarios[id := r.0.body]
    ensures EmailsUnique(r.1)
  {
    if !IsStaff(auth) then (Fail(403, "Only users can create new users"), usuarios)
    else if senha.None? then (Fail(500, "Failed to create user"), usuarios)
    else if exists k :: k in usuarios && usuarios[k].email == email then (Fail(500, "Failed to create user"), usuarios)
    else
      var row := Usuario(id, nome, email, hash(senha.value), USER_ROLE);
      (Ok(201, row), usuarios[id := row])
  }

  /** The `role` in the body has no effect on `createUser`. */
  lemma CreateUserIgnoresRole(auth: Option<Payload>, nome: string, email: string, senha: Option<string>,
                              role1: Option<string>, role2: Option<string>, hash: string -> string,
                              usuarios: Table, id: int)
    requires id !in usuarios && EmailsUnique(usuarios)
    ensures CreateUser(auth, nome, email, senha, role1, hash, usuarios, id)
         == CreateUser(auth, nome, email, senha, role2, hash, usuarios, id)
  {
  }

  /** `login`: the same 401 for an unknown email and a wrong password; the
      token carries the user's id and stored role and expires in one hour. */
  function Login(email: string, senha: string, usuarios: Table, compare: (string, string) -> bool,
                 secret: Option<string>, now: int): (r: Reply<Claims>)
    requires EmailsUnique(usuarios)
    ensures r.Fail? ==> r == Fail(401, "Invalid email or password") || r == Fail(500, "Internal server error")
    ensures r.Fail? && r.status == 401 <==>
      !exists k :: k in usuarios && usuarios[k].email == email && compare(senha, usuarios[k].senha)
    ensures r.Ok? <==> (Truthy(secret) &&
      exists k :: k in usuarios && usuarios[k].email == email && compare(senha, usuarios[k].senha))
    ensures r.Ok? ==> r.status == 200 && r.body.iat == now && r.body.exp == now + VALIDITY_SECONDS
    ensures r.Ok? ==> exists k :: k in usuarios && usuarios[k].email == email
                                && r.body.payload == Payload(None, Some(usuarios[k].id), usuarios[k].role)
  {
    match FindByEmail(usuarios, email)
    case None => Fail(401, "Invalid email or password")
    case Some(u) =>
      if !compare(senha, u.senha) then Fail(401, "Invalid email or password")
      else if !Truthy(secret) then Fail(500, "Internal server error")
      else Ok(200, Sign(Payload(None, Some(u.id), u.role), now))
  }

  /** `getUsers`: the whole table, for staff only. */
  function GetUsers(auth: Option<Payload>, usuarios: Table): (r: Reply<Table>)
    ensures r.Ok? <==> IsStaff(auth)
    ensures r.Ok? ==> r == Ok(200, usuarios)
    ensures r.Fail? ==> r == Fail(403, "Only users can access user list")
  {
    if !IsStaff(auth) then Fail(403, "Only users can access user list") else Ok(200, usuarios)
  }

  /** The permission of the three `/:id` handlers: staff, or the user whose
      id it is (a non-numeric id matches nobody). */
  predicate MayAccess(p: Payload, id: Option<int>)
  {
    p.role == USER_ROLE || (id.Some? && p.userId == id)
  }

  /** The checks the three `/:id` handlers share, in their order: 401
      without `req.auth`, then 403. `None` means the checks passed. */
  function UserGate(auth: Option<Payload>, id: Option<int>): (r: Option<Reply<()>>)
    ensures auth.None? ==> r == Some(Fail(401, "Unauthorized"))
    ensures auth.Some? && !MayAccess(auth.value, id) ==> r == Some(Fail(403, "Forbidden"))
    ensures r.None? <==> auth.Some? && MayAccess(auth.value, id)
  {
    if auth.None? then Some(Fail(401, "Unauthorized"))
    else if !MayAccess(auth.value, id) then Some(Fail(403, "Forbidden"))
    else None
  }

  /** `getUserById`: the gate, then 404 only once the caller is allowed. */
  function GetUserById(auth: Option<Payload>, id: Option<int>, usuarios: Table): (r: Reply<Usuario>)
    ensures auth.None? ==> r == Fail(401, "Unauthorized")
    ensures auth.Some? && !MayAccess(auth.value, id) ==> r == Fail(403, "Forbidden")
    ensures auth.Some? && MayAccess(auth.value, id) && id.None? ==> r == Fail(500, "Failed to retrieve user")
    ensures r == Fail(404, "User not found") <==>
      auth.Some? && MayAccess(auth.value, id) && id.Some? && id.value !in usuarios
    ensures r.Ok? <==> auth.Some? && MayAccess(auth.value, id) && id.Some? && id.value in usuarios
    ensures r.Ok? ==> r == Ok(200, usuarios[id.value])
  {
    match UserGate(auth, id)
    case Some(f) => Fail(f.status, f.error)
    case None =>
      if id.None? then Fail(500, "Failed to retrieve user")
      else if id.value !in usuarios then Fail(404, "User not found")
      else Ok(200, usuarios[id.value])
  }

  /** The fields of `updatedData`; `None` means the key was not set. */
  datatype UsuarioData = UsuarioData(nome: Option<string>, email: Option<string>, senha: Option<string>)

  /** `updatedData` of `updateUser`: only truthy fields, the password as its
      hash. */
  function UpdatedData(nome: Option<string>, email: Option<string>, senha: Option<string>,
                       hash: string -> string): (d: UsuarioData)
    ensures d.nome.Some? <==> Truthy(nome)
    ensures d.email.Some? <==> Truthy(email)
    ensures d.senha.Some? <==> Truthy(senha)
    ensures d.nome.Some? ==> d.nome == nome
    ensures d.email.Some? ==> d.email == email
    ensures d.senha.Some? ==> d.senha.value == hash(senha.value)
  {
    UsuarioData(if Truthy(nome) then nome else None,
                if Truthy(email) then email else None,
                if Truthy(senha) then Some(hash(senha.value)) else None)
  }

  /** The row after `update({ data })`. */
  function Apply(u: Usuario, data: UsuarioData): (d: Usuario)
    ensures d.id == u.id && d.role == u.role
    ensures data == UsuarioData(None, None, None) ==> d == u
  {
    u.(nome := if data.nome.Some? then data.nome.value else u.nome,
       email := if data.email.Some? then data.email.value else u.email,
       senha := if data.senha.Some? then data.senha.value else u.senha)
  }

  /** Some row other than `id` already has `email`. */
  predicate EmailTakenByOther(usuarios: Table, id: int, email: string)
  {
    exists k :: k in usuarios && k != id && usuarios[k].email == email
  }

  /** `updateUser`: the gate, then the partial update. Unlike the customer
      handler, a missing row is not mapped to 404: the store's error ends in
      500, as does a taken email. */
  function UpdateUser(auth: Option<Payload>, id: Option<int>, nome: Option<string>, email: Option<string>,
                      senha: Option<string>, hash: string -> string, usuarios: Table): (r: (Reply<Usuario>, Table))
    requires EmailsUnique(usuarios)
    ensures auth.None? ==> r == (Fail(401, "Unauthorized"), usuarios)
    ensures auth.Some? && !MayAccess(auth.value, id) ==> r == (Fail(403, "Forbidden"), usuarios)
    ensures auth.Some? && MayAccess(auth.value, id) && id.Some? && id.value !in usuarios
            ==> r == (Fail(500, "Failed to update user"), usuarios)
    ensures auth.Some? && MayAccess(auth.value, id) && id.None? ==> r == (Fail(500, "Failed to update user"), usuarios)
    ensures auth.Some? && MayAccess(auth.value, id) && id.Some? && id.value in usuarios
            && EmailTakenByOther(usuarios, id.value, if Truthy(email) then email.value else usuarios[id.value].email)
            ==> r == (Fail(500, "Failed to update user"), usuarios)
    ensures r.0.Fail? ==> r.1 == usuarios
    ensures r.0.Ok? <==> auth.Some? && MayAccess(auth.value, id) && id.Some? && id.value in usuarios
                         && !EmailTakenByOther(usuarios, id.value,
                                               if Truthy(email) then email.value else usuarios[id.value].email)
    ensures r.0.Ok? ==>
      var (old_, new_) := (usuarios[id.value], r.0.body);
      && r.0.status == 200
      && r.1 == usuarios[id.value := new_]
      && new_.id == old_.id && new_.role == old_.role
      && new_.nome == (if Truthy(nome) then nome.value else old_.nome)
      && new_.email == (if Truthy(email) then email.value else old_.email)
      && new_.senha == (if Truthy(senha) then hash(senha.value) else old_.senha)
    ensures EmailsUnique(r.1)
  {
    match UserGate(auth, id)
    case Some(f) => (Fail(f.status, f.error), usuarios)
    case None =>
      if id.None? || id.value !in usuarios then (Fail(500, "Failed to update user"), usuarios)
      else
        var row := Apply(usuarios[id.value], UpdatedData(nome, email, senha, hash));
        if EmailTakenByOther(usuarios, id.value, row.email) then
          (Fail(500, "Failed to update user"), usuarios)
        else (Ok(200, row), usuarios[id.value := row])
  }

  /** `deleteUser`: the gate, then 204 with only that row gone; a missing row
      ends in 500. */
  function DeleteUser(auth: Option<Payload>, id: Option<int>, usuarios: Table): (r: (Reply<()>, Table))
    ensures auth.None? ==> r == (Fail(401, "Unauthorized"), usuarios)
    ensures auth.Some? && !MayAccess(auth.value, id) ==> r == (Fail(403, "Forbidden"), usuarios)
    ensures auth.Some? && MayAccess(auth.value, id) && (id.None? || id.value !in usuarios)
            ==> r == (Fail(500, "Failed to delete user"), usuarios)
    ensures r.0.Fail? ==> r.1 == usuarios
    ensures r.0.Ok? <==> auth.Some? && MayAccess(auth.value, id) && id.Some? && id.value in usuarios
    ensures r.0.Ok? ==> r.0.status == 204 && r.1 == usuarios - {id.value}
  {
    match UserGate(auth, id)
    case Some(f) => (Fail(f.status, f.error), usuarios)
    case None =>
      if id.None? || id.value !in usuarios then (Fail(500, "Failed to delete user"), usuarios)
      else (Ok(204, ()), usuarios - {id.value})
  }

  /** The user table of the running server. */
  class UserController {
    var usuarios: Table
    var nextId: int

    ghost predicate Valid()
      reads this
    {
      && EmailsUnique(usuarios)
      && forall k :: k in usuarios ==> k < nextId && usuarios[k].id == k
    }

    constructor ()
      ensures Valid() && usuarios == map[] && nextId == 1
    {
      usuarios := map[];
      nextId := 1;
    }

    /** `createUser`. */
    method CreateUserHandler(auth: Option<Payload>, nome: string, email: string, senha: Option<string>,
                             role: Option<string>, hash: string -> string) returns (r: Reply<Usuario>)
      requires Valid()
      modifies this
      ensures Valid()
      ensures old(nextId) !in old(usuarios)
      ensures (r, usuarios) == CreateUser(auth, nome, email, senha, role, hash, old(usuarios), old(nextId))
      ensures nextId == if r.Ok? then old(nextId) + 1 else old(nextId)
    {
      if !IsStaff(auth) {
        return Fail(403, "Only users can create new users");
      }
      if senha.None? {
        return Fail(500, "Failed to create user");
      }
      var senhaCriptografada := hash(senha.value);
      if exists k :: k in usuarios && usuarios[k].email == email {
        return Fail(500, "Failed to create user");
      }
      var row := Usuario(nextId, nome, email, senhaCriptografada, USER_ROLE);
      usuarios := usuarios[nextId := row];
      nextId := nextId + 1;
      r := Ok(201, row);
    }

    /** `updateUser`; `updatedData` is filled in field by field. */
    method UpdateUserHandler(auth: Option<Payload>, id: Option<int>, nome: Option<string>,
                             email: Option<string>, senha: Option<string>, hash: string -> string)
      returns (r: Reply<Usuario>)
      requires Valid()
      modifies this
      ensures Valid() && nextId == old(nextId)
      ensures (r, usuarios) == UpdateUser(auth, id, nome, email, senha, hash, old(usuarios))
    {
      if auth.None? {
        return Fail(401, "Unauthorized");
      }
      if auth.value.role != USER_ROLE && (id.None? || auth.value.userId != id) {
        return Fail(403, "Forbidden");
      }
      var updatedData := UsuarioData(None, None, None);
      if Truthy(nome) {
        updatedData := updatedData.(nome := nome);
      }
      if Truthy(email) {
        updatedData := updatedData.(email := email);
      }
      if Truthy(senha) {
        updatedData := updatedData.(senha := Some(hash(senha.value)));
      }
      assert updatedData == UpdatedData(nome, email, senha, hash);
      assert UserGate(auth, id) == None;
      if id.None? || id.value !in usuarios {
        return Fail(500, "Failed to update user");
      }
      var row := Apply(usuarios[id.value], updatedData);
      if EmailTakenByOther(usuarios, id.value, row.email) {
        return Fail(500, "Failed to update user");
      }
      usuarios := usuarios[id.value := row];
      r := Ok(200, row);
    }

    /** `deleteUser`. */
    method DeleteUserHandler(auth: Option<Payload>, id: Option<int>) returns (r: Reply<()>)
      requires Valid()
      modifies this
      ensures Valid() && nextId == old(nextId)
      ensures (r, usuarios) == DeleteUser(auth, id, old(usuarios))
    {
      if auth.None? {
        return Fail(401, "Unauthorized");
      }
      if auth.value.role != USER_ROLE && (id.None? || auth.value.userId != id) {
        return Fail(403, "Forbidden");
      }
      if id.None? || id.value !in usuarios {
        return Fail(500, "Failed to delete user");
      }
      usuarios := usuarios - {id.value};
      r := Ok(204, ());
    }
  }
}
