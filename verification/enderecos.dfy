/** The address ("endereco") handlers, scoped to the customer in the token.
    Fetch, update and delete look the address up first (404) and only then
    check that it belongs to the caller (403). */
module Enderecos {
  import opened Common

  /** A row of the address table. */
  datatype Endereco = Endereco(id: int, clienteId: int, addr: Address)

  type Table = map<int, Endereco>

  /** The body of `updateEndereco`; a missing field (`undefined`) is left
      out of the update by the store. */
  datatype AddressPatch = AddressPatch(rua: Option<string>, numero: Option<string>, cidade: Option<string>,
                                       estado: Option<string>, cep: Option<string>)

  /** `createEndereco`: the new row belongs to the token's customer. */
  function CreateEndereco(auth: Option<Payload>, addr: Address, enderecos: Table, id: int): (r: (Reply<Endereco>, Table))
    requires id !in enderecos
    ensures r.0.Fail? <==> !HasClientId(auth)
    ensures r.0.Fail? ==> r == (Fail(401, "Unauthorized"), enderecos)
    ensures r.0.Ok? ==> r.0 == Ok(201, Endereco(id, CallerId(auth), addr)) && r.1 == enderecos[id := r.0.body]
  {
    if !HasClientId(auth) then (Fail(401, "Unauthorized"), enderecos)
    else
      var row := Endereco(id, CallerId(auth), addr);
      (Ok(201, row), enderecos[id := row])
  }

  /** `getEnderecos`: exactly the caller's addresses. */
  function GetEnderecos(auth: Option<Payload>, enderecos: Table): (r: Reply<Table>)
    ensures r.Fail? <==> !HasClientId(auth)
    ensures r.Fail? ==> r == Fail(401, "Unauthorized")
    ensures r.Ok? ==> r.status == 200
    ensures r.Ok? ==> forall k :: k in r.body <==> k in enderecos && enderecos[k].clienteId == CallerId(auth)
    ensures r.Ok? ==> forall k :: k in r.body ==> r.body[k] == enderecos[k]
  {
    if !HasClientId(auth) then Fail(401, "Unauthorized")
    else Ok(200, map k | k in enderecos && enderecos[k].clienteId == CallerId(auth) :: enderecos[k])
  }

  /** The checks `getEnderecoById`, `deleteEndereco` and `updateEndereco`
      share, in their order: 401, a non-numeric id (the store throws, 500),
      404, then 403 for another customer's address. `None` means passed. */
  function OwnedGate(auth: Option<Payload>, id: Option<int>, enderecos: Table, internal: string, forbidden: string)
    : (r: Option<Reply<()>>)
    ensures !HasClientId(auth) ==> r == Some(Fail(401, "Unauthorized"))
    ensures HasClientId(auth) && id.Some? && id.value !in enderecos ==> r == Some(Fail(404, "Endereco not found"))
    ensures HasClientId(auth) && id.Some? && id.value in enderecos && enderecos[id.value].clienteId != CallerId(auth)
            ==> r == Some(Fail(403, forbidden))
    ensures r.None? <==> HasClientId(auth) && id.Some? && id.value in enderecos
                         && enderecos[id.value].clienteId == CallerId(auth)
  {
    if !HasClientId(auth) then Some(Fail(401, "Unauthorized"))
    else if id.None? then Some(Fail(500, internal))
    else if id.value !in enderecos then Some(Fail(404, "Endereco not found"))
    else if enderecos[id.value].clienteId != CallerId(auth) then Some(Fail(403, forbidden))
    else None
  }

  /** `getEnderecoById`. */
  function GetEnderecoById(auth: Option<Payload>, id: Option<int>, enderecos: Table): (r: Reply<Endereco>)
    ensures !HasClientId(auth) ==> r == Fail(401, "Unauthorized")
    ensures HasClientId(auth) && id.Some? && id.value !in enderecos ==> r == Fail(404, "Endereco not found")
    ensures HasClientId(auth) && id.Some? && id.value in enderecos && enderecos[id.value].clienteId != CallerId(auth)
            ==> r == Fail(403, "You can only view your own enderecos")
    ensures r.Ok? <==> HasClientId(auth) && id.Some? && id.value in enderecos
                       && enderecos[id.value].clienteId == CallerId(auth)
    ensures r.Ok? ==> r == Ok(200, enderecos[id.value])
  {
    match OwnedGate(auth, id, enderecos, "Failed to retrieve endereco", "You can only view your own enderecos")
    case Some(f) => Fail(f.status, f.error)
    case None => Ok(200, enderecos[id.value])
  }

  /** `deleteEndereco`: on success 204 and only the target row is gone. */
  function DeleteEndereco(auth: Option<Payload>, id: Option<int>, enderecos: Table): (r: (Reply<()>, Table))
    ensures !HasClientId(auth) ==> r == (Fail(401, "Unauthorized"), enderecos)
    ensures HasClientId(auth) && id.Some? && id.value !in enderecos ==> r == (Fail(404, "Endereco not found"), enderecos)
    ensures HasClientId(auth) && id.Some? && id.value in enderecos && enderecos[id.value].clienteId != CallerId(auth)
            ==> r == (Fail(403, "You can only delete your own enderecos"), enderecos)
    ensures r.0.Fail? ==> r.1 == enderecos
    ensures r.0.Ok? <==> HasClientId(auth) && id.Some? && id.value in enderecos
                         && enderecos[id.value].clienteId == CallerId(auth)
    ensures r.0.Ok? ==> r.0.status == 204 && r.1 == enderecos - {id.value}
  {
    match OwnedGate(auth, id, enderecos, "Failed to delete endereco", "You can only delete your own enderecos")
    case Some(f) => (Fail(f.status, f.error), enderecos)
    case None => (Ok(204, ()), enderecos - {id.value})
  }

  /** The address after `update({ data: { rua, numero, cidade, estado, cep } })`. */
  function Patch(a: Address, p: AddressPatch): (r: Address)
    ensures p.rua.Some? ==> r.rua == p.rua.value
    ensures p.numero.Some? ==> r.numero == p.numero.value
    ensures p.cidade.Some? ==> r.cidade == p.cidade.value
    ensures p.estado.Some? ==> r.estado == p.estado.value
    ensures p.cep.Some? ==> r.cep == p.cep.value
    ensures p.rua.None? ==> r.rua == a.rua
    ensures p.numero.None? ==> r.numero == a.numero
    ensures p.cidade.None? ==> r.cidade == a.cidade
    ensures p.estado.None? ==> r.estado == a.estado
    ensures p.cep.None? ==> r.cep == a.cep
  {
    Address(if p.rua.Some? then p.rua.value else a.rua,
            if p.numero.Some? then p.numero.value else a.numero,
            if p.cidade.Some? then p.cidade.value else a.cidade,
            if p.estado.Some? then p.estado.value else a.estado,
            if p.cep.Some? then p.cep.value else a.cep)
  }

  /** `updateEndereco`: on success only the target row's address fields
      change; its id and owner stay. */
  function UpdateEndereco(auth: Option<Payload>, id: Option<int>, p: AddressPatch, enderecos: Table)
    : (r: (Reply<Endereco>, Table))
    ensures !HasClientId(auth) ==> r == (Fail(401, "Unauthorized"), enderecos)
    ensures HasClientId(auth) && id.Some? && id.value !in enderecos ==> r == (Fail(404, "Endereco not found"), enderecos)
    ensures HasClientId(auth) && id.Some? && id.value in enderecos && enderecos[id.value].clienteId != CallerId(auth)
            ==> r == (Fail(403, "You can only update your own enderecos"), enderecos)
    ensures r.0.Fail? ==> r.1 == enderecos
    ensures r.0.Ok? <==> HasClientId(auth) && id.Some? && id.value in enderecos
                         && enderecos[id.value].clienteId == CallerId(auth)
    ensures r.0.Ok? ==>
      && r.0.status == 200
      && r.1 == enderecos[id.value := r.0.body]
      && r.0.body.id == enderecos[id.value].id
      && r.0.body.clienteId == enderecos[id.value].clienteId
      && r.0.body.addr == Patch(enderecos[id.value].addr, p)
  {
    match OwnedGate(auth, id, enderecos, "Failed to update endereco", "You can only update your own enderecos")
    case Some(f) => (Fail(f.status, f.error), enderecos)
    case None =>
      var row := enderecos[id.value].(addr := Patch(enderecos[id.value].addr, p));
      (Ok(200, row), enderecos[id.value := row])
  }

  /** A patch that sends all five fields replaces the whole address; one that
      sends none leaves it as it was. */
  lemma PatchFullAndEmpty(a: Address, b: Address)
    ensures Patch(a, AddressPatch(Some(b.rua), Some(b.numero), Some(b.cidade), Some(b.estado), Some(b.cep))) == b
    ensures Patch(a, AddressPatch(None, None, None, None, None)) == a
  {
  }

  /** The address table of the running server. */
  class EnderecoController {
    var enderecos: Table
    var nextId: int

    ghost predicate Valid()
      reads this
    {
      forall k :: k in enderecos ==> k < nextId && enderecos[k].id == k
    }

    constructor ()
      ensures Valid() && enderecos == map[] && nextId == 1
    {
      enderecos := map[];
      nextId := 1;
    }

    /** `createEndereco`. */
    method CreateEnderecoHandler(auth: Option<Payload>, addr: Address) returns (r: Reply<Endereco>)
      requires Valid()
      modifies this
      ensures Valid()
      ensures old(nextId) !in old(enderecos)
      ensures (r, enderecos) == CreateEndereco(auth, addr, old(enderecos), old(nextId))
      ensures nextId == if r.Ok? then old(nextId) + 1 else old(nextId)
    {
      if !HasClientId(auth) {
        return Fail(401, "Unauthorized");
      }
      var row := Endereco(nextId, CallerId(auth), addr);
      enderecos := enderecos[nextId := row];
      nextId := nextId + 1;
      r := Ok(201, row);
    }

    /** `deleteEndereco`. */
    method DeleteEnderecoHandler(auth: Option<Payload>, id: Option<int>) returns (r: Reply<()>)
      requires Valid()
      modifies this
      ensures Valid() && nextId == old(nextId)
      ensures (r, enderecos) == DeleteEndereco(auth, id, old(enderecos))
    {
      if !HasClientId(auth) {
        return Fail(401, "Unauthorized");
      }
      if id.None? {
        return Fail(500, "Failed to delete endereco");
      }
      if id.value !in enderecos {
        return Fail(404, "Endereco not found");
      }
      if enderecos[id.value].clienteId != CallerId(auth) {
        return Fail(403, "You can only delete your own enderecos");
      }
      enderecos := enderecos - {id.value};
      r := Ok(204, ());
    }

    /** `updateEndereco`. */
    method UpdateEnderecoHandler(auth: Option<Payload>, id: Option<int>, p: AddressPatch) returns (r: Reply<Endereco>)
      requires Valid()
      modifies this
      ensures Valid() && nextId == old(nextId)
      ensures (r, enderecos) == UpdateEndereco(auth, id, p, old(enderecos))
    {
      if !HasClientId(auth) {
        return Fail(401, "Unauthorized");
      }
      if id.None? {
        return Fail(500, "Failed to update endereco");
      }
      if id.value !in enderecos {
        return Fail(404, "Endereco not found");
      }
      var endereco := enderecos[id.value];
      if endereco.clienteId != CallerId(auth) {
        return Fail(403, "You can only update your own enderecos");
      }
      var updated := endereco.(addr := Patch(endereco.addr, p));
      enderecos := enderecos[id.value := updated];
      r := Ok(200, updated);
    }
  }
}
