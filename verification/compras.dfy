/** The order ("compra") handlers. Every handler runs a fixed sequence of
    early-return checks before it touches the order table; only
    `createCompra`, `cancelCompra` and `updateStatusCompra` change it. */
module Compras {
  import opened Common

  /** One stored order line: product, quantity and unit price (prices are
      opaque values; nothing computes with them). */
  datatype Item = Item(produtoId: int, quantidade: int, precoUnit: real)

  /** One order line as the request body sends it; any other property
      (`extra`) is dropped. */
  datatype ItemInput = ItemInput(produtoId: int, quantidade: int, precoUnit: real, extra: map<string, string>)

  /** The body of `createCompra`. `itens` or `endereco` may be missing; a
      `total`, if sent, is never read. */
  datatype CompraInput = CompraInput(itens: Option<seq<ItemInput>>, payment: string,
                                     endereco: Option<Address>, total: Option<real>)

  /** A row of the order table, with the shipping address snapshot. */
  datatype Compra = Compra(id: int, clienteId: int, itens: seq<Item>, payment: string,
                           endereco: Address, status: string)

  type Table = map<int, Compra>

  /** The whitelist of `updateStatusCompra`; note the lower-case last entry. */
  const VALID_STATUSES: seq<string> := ["PENDING", "PAID", "SENT", "DELIVERED", "canceled"]
  /** The status `cancelCompra` tests for and writes. */
  const CANCELED := "CANCELED"
  /** The status the table gives a new row. */
  const INITIAL_STATUS := "PENDING"

  /** `itens.map(item => ({ produtoId, quantidade, precoUnit }))`. */
  function ToItems(xs: seq<ItemInput>): (items: seq<Item>)
    ensures |items| == |xs|
    ensures forall i :: 0 <= i < |xs| ==>
      items[i] == Item(xs[i].produtoId, xs[i].quantidade, xs[i].precoUnit)
  {
    if xs == [] then []
    else [Item(xs[0].produtoId, xs[0].quantidade, xs[0].precoUnit)] + ToItems(xs[1..])
  }

  /** `getCompras`: the caller's orders. */
  function GetCompras(auth: Option<Payload>, compras: Table): (r: Reply<Table>)
    ensures !HasClientId(auth) ==> r == Fail(401, "Unauthorized")
    ensures HasClientId(auth) ==> r.Ok? && r.status == 200
    ensures r.Ok? ==> forall k :: k in r.body <==> k in compras && compras[k].clienteId == CallerId(auth)
    ensures r.Ok? ==> forall k :: k in r.body ==> r.body[k] == compras[k]
  {
    if !HasClientId(auth) then Fail(401, "Unauthorized")
    else Ok(200, map k | k in compras && compras[k].clienteId == CallerId(auth) :: compras[k])
  }

  /** `getComprasById`: 401, then 404 for an absent order, then 403 for an
      order of another customer, whatever the caller's role. */
  function GetCompraById(auth: Option<Payload>, id: Option<int>, compras: Table): (r: Reply<Compra>)
    ensures !HasClientId(auth) ==> r == Fail(401, "Unauthorized")
    ensures HasClientId(auth) && id == None ==> r == Fail(500, "Failed to retrieve compra")
    ensures HasClientId(auth) && id.Some? && id.value !in compras ==> r == Fail(404, "Compra not found")
    ensures HasClientId(auth) && id.Some? && id.value in compras && compras[id.value].clienteId != CallerId(auth)
            ==> r == Fail(403, "You can only view your own compras")
    ensures r.Ok? <==> HasClientId(auth) && id.Some? && id.value in compras
                       && compras[id.value].clienteId == CallerId(auth)
    ensures r.Ok? ==> r == Ok(200, compras[id.value])
  {
    if !HasClientId(auth) then Fail(401, "Unauthorized")
    else if id.None? then Fail(500, "Failed to retrieve compra")
    else if id.value !in compras then Fail(404, "Compra not found")
    else if compras[id.value].clienteId != CallerId(auth) then Fail(403, "You can only view your own compras")
    else Ok(200, compras[id.value])
  }

  /** `createCompra`: the new row `id` belongs to the token's customer, holds
      the body's lines and address snapshot, and starts as `PENDING`. */
  function CreateCompra(auth: Option<Payload>, input: CompraInput, compras: Table, id: int): (r: (Reply<Compra>, Table))
    requires id !in compras
    ensures !HasClientId(auth) ==> r == (Fail(401, "Unauthorized"), compras)
    ensures r.0.Ok? <==> HasClientId(auth) && input.itens.Some? && input.endereco.Some?
    ensures r.0.Fail? ==> r.1 == compras
    ensures r.0.Ok? ==>
      && r.0.status == 201
      && r.1 == compras[id := r.0.body]
      && r.0.body.id == id
      && r.0.body.clienteId == CallerId(auth)
      && r.0.body.status == INITIAL_STATUS
      && r.0.body.payment == input.payment
      && r.0.body.endereco == input.endereco.value
      && |r.0.body.itens| == |input.itens.value|
      && forall i :: 0 <= i < |input.itens.value| ==>
           && r.0.body.itens[i].produtoId == input.itens.value[i].produtoId
           && r.0.body.itens[i].quantidade == input.itens.value[i].quantidade
           && r.0.body.itens[i].precoUnit == input.itens.value[i].precoUnit
  {
    if !HasClientId(auth) then (Fail(401, "Unauthorized"), compras)
    else if input.itens.None? || input.endereco.None? then (Fail(500, "Failed to create compra"), compras)
    else
      var row := Compra(id, CallerId(auth), ToItems(input.itens.value), input.payment,
                        input.endereco.value, INITIAL_STATUS);
      (Ok(201, row), compras[id := row])
  }

  /** `cancelCompra`: 401, then 404, then 403 for another customer's order,
      then 400 for an order already `CANCELED`; otherwise only that order's
      status changes, to `CANCELED`. */
  function CancelCompra(auth: Option<Payload>, id: Option<int>, compras: Table): (r: (Reply<Compra>, Table))
    ensures !HasClientId(auth) ==> r == (Fail(401, "Unauthorized"), compras)
    ensures HasClientId(auth) && id == None ==> r == (Fail(500, "Failed to cancel compra"), compras)
    ensures HasClientId(auth) && id.Some? && id.value !in compras ==> r == (Fail(404, "Compra not found"), compras)
    ensures HasClientId(auth) && id.Some? && id.value in compras && compras[id.value].clienteId != CallerId(auth)
            ==> r == (Fail(403, "You can only cancel your own compras"), compras)
    ensures HasClientId(auth) && id.Some? && id.value in compras && compras[id.value].clienteId == CallerId(auth)
            && compras[id.value].status == CANCELED
            ==> r == (Fail(400, "Compra is already canceled"), compras)
    ensures r.0.Ok? <==> HasClientId(auth) && id.Some? && id.value in compras
                         && compras[id.value].clienteId == CallerId(auth) && compras[id.value].status != CANCELED
    ensures r.0.Fail? ==> r.1 == compras
    ensures r.0.Ok? ==>
      && r.0.status == 200
      && r.1 == compras[id.value := compras[id.value].(status := CANCELED)]
      && r.0.body == r.1[id.value]
  {
    if !HasClientId(auth) then (Fail(401, "Unauthorized"), compras)
    else if id.None? then (Fail(500, "Failed to cancel compra"), compras)
    else if id.value !in compras then (Fail(404, "Compra not found"), compras)
    else if compras[id.value].clienteId != CallerId(auth) then
      (Fail(403, "You can only cancel your own compras"), compras)
    else if compras[id.value].status == CANCELED then (Fail(400, "Compra is already canceled"), compras)
    else
      var row := compras[id.value].(status := CANCELED);
      (Ok(200, row), compras[id.value := row])
  }

  /** `updateStatusCompra`: 403 for a non-staff caller, then 400 for a
      status outside the whitelist, then 404; otherwise the status is
      overwritten with exactly the given value, whatever it was before. */
  function UpdateStatusCompra(auth: Option<Payload>, id: Option<int>, status: Option<string>, compras: Table)
    : (r: (Reply<Compra>, Table))
    ensures !IsStaff(auth) ==> r == (Fail(403, "Only users can update compra status"), compras)
    ensures IsStaff(auth) && (status.None? || status.value !in VALID_STATUSES)
            ==> r == (Fail(400, "Invalid status value"), compras)
    ensures IsStaff(auth) && status.Some? && status.value in VALID_STATUSES && id.Some? && id.value !in compras
            ==> r == (Fail(404, "Compra not found"), compras)
    ensures r.0.Fail? ==> r.1 == compras
    ensures r.0.Ok? <==> IsStaff(auth) && status.Some? && status.value in VALID_STATUSES
                         && id.Some? && id.value in compras
    ensures r.0.Ok? ==>
      && r.0.status == 200
      && r.1 == compras[id.value := compras[id.value].(status := status.value)]
      && r.0.body == r.1[id.value]
  {
    if !IsStaff(auth) then (Fail(403, "Only users can update compra status"), compras)
    else if status.None? || status.value !in VALID_STATUSES then (Fail(400, "Invalid status value"), compras)
    else if id.None? then (Fail(500, "Failed to update compra status"), compras)
    else if id.value !in compras then (Fail(404, "Compra not found"), compras)
    else
      var row := compras[id.value].(status := status.value);
      (Ok(200, row), compras[id.value := row])
  }

  /** A second cancel of an order always answers 400 and changes nothing. */
  lemma CancelTwice(auth: Option<Payload>, id: Option<int>, compras: Table)
    requires CancelCompra(auth, id, compras).0.Ok?
    ensures var after := CancelCompra(auth, id, compras).1;
            CancelCompra(auth, id, after) == (Fail(400, "Compra is already canceled"), after)
  {
  }

  /** The whitelist spells `canceled` in lower case while `cancelCompra`
      tests for `CANCELED`: after staff set `canceled`, the owner's cancel
      still succeeds and writes `CANCELED`. */
  lemma LowercaseCanceledStillCancellable(staff: Option<Payload>, owner: Option<Payload>, id: int, compras: Table)
    requires IsStaff(staff) && HasClientId(owner)
    requires id in compras && compras[id].clienteId == CallerId(owner)
    ensures var (r1, after) := UpdateStatusCompra(staff, Some(id), Some("canceled"), compras);
            && r1.Ok? && after[id].status == "canceled"
            && CancelCompra(owner, Some(id), after).0.Ok?
            && CancelCompra(owner, Some(id), after).1[id].status == CANCELED
  {
    assert "canceled" in VALID_STATUSES;
    assert "canceled" != CANCELED;
  }

  /** Staff cannot write the upper-case `CANCELED` that `cancelCompra` uses. */
  lemma UppercaseCanceledRejected(staff: Option<Payload>, id: Option<int>, compras: Table)
    requires IsStaff(staff)
    ensures UpdateStatusCompra(staff, id, Some(CANCELED), compras) == (Fail(400, "Invalid status value"), compras)
  {
    assert CANCELED !in VALID_STATUSES;
  }

  /** `CANCELED` is not terminal: staff may move a cancelled order back to
      `PENDING`, after which its owner can cancel it again. */
  lemma CanceledIsNotTerminal(staff: Option<Payload>, owner: Option<Payload>, id: int, compras: Table)
    requires IsStaff(staff) && HasClientId(owner)
    requires id in compras && compras[id].clienteId == CallerId(owner) && compras[id].status == CANCELED
    ensures var after := UpdateStatusCompra(staff, Some(id), Some("PENDING"), compras).1;
            && after[id].status == "PENDING"
            && CancelCompra(owner, Some(id), after).0.Ok?
  {
    assert "PENDING" in VALID_STATUSES;
  }

  /** An order created by a customer is listed for that customer, fetched
      by them, and refused with 403 to every other customer. */
  lemma CreatedCompraVisibleOnlyToOwner(owner: Option<Payload>, other: Option<Payload>, input: CompraInput,
                                        compras: Table, id: int)
    requires id !in compras && HasClientId(owner) && HasClientId(other) && CallerId(other) != CallerId(owner)
    requires input.itens.Some? && input.endereco.Some?
    ensures var after := CreateCompra(owner, input, compras, id).1;
            && id in GetCompras(owner, after).body
            && id !in GetCompras(other, after).body
            && GetCompraById(owner, Some(id), after).Ok?
            && GetCompraById(other, Some(id), after) == Fail(403, "You can only view your own compras")
  {
  }

  /** The order table of the running server. Ids are handed out in
      increasing order, as the table's auto-increment key does. */
  class ComprasController {
    var compras: Table
    var nextId: int

    ghost predicate Valid()
      reads this
    {
      forall k :: k in compras ==> k < nextId && compras[k].id == k
    }

    constructor ()
      ensures Valid() && compras == map[] && nextId == 1
    {
      compras := map[];
      nextId := 1;
    }

    /** `createCompra`. */
    method CreateCompraHandler(auth: Option<Payload>, input: CompraInput) returns (r: Reply<Compra>)
      requires Valid()
      modifies this
      ensures Valid()
      ensures old(nextId) !in old(compras)
      ensures (r, compras) == CreateCompra(auth, input, old(compras), old(nextId))
      ensures nextId == if r.Ok? then old(nextId) + 1 else old(nextId)
    {
      if !HasClientId(auth) {
        return Fail(401, "Unauthorized");
      }
      var clientId := CallerId(auth);
      if input.itens.None? || input.endereco.None? {
        return Fail(500, "Failed to create compra");
      }
      var itensData := ToItems(input.itens.value);
      var row := Compra(nextId, clientId, itensData, input.payment, input.endereco.value, INITIAL_STATUS);
      compras := compras[nextId := row];
      nextId := nextId + 1;
      r := Ok(201, row);
    }

    /** `cancelCompra`. */
    method CancelCompraHandler(auth: Option<Payload>, id: Option<int>) returns (r: Reply<Compra>)
      requires Valid()
      modifies this
      ensures Valid() && nextId == old(nextId)
      ensures (r, compras) == CancelCompra(auth, id, old(compras))
    {
      if !HasClientId(auth) {
        return Fail(401, "Unauthorized");
      }
      var clientId := CallerId(auth);
      if id.None? {
        return Fail(500, "Failed to cancel compra");
      }
      if id.value !in compras {
        return Fail(404, "Compra not found");
      }
      var compra := compras[id.value];
      if compra.clienteId != clientId {
        return Fail(403, "You can only cancel your own compras");
      }
      if compra.status == CANCELED {
        return Fail(400, "Compra is already canceled");
      }
      var canceled := compra.(status := CANCELED);
      compras := compras[id.value := canceled];
      r := Ok(200, canceled);
    }

    /** `updateStatusCompra`. */
    method UpdateStatusCompraHandler(auth: Option<Payload>, id: Option<int>, status: Option<string>)
      returns (r: Reply<Compra>)
      requires Valid()
      modifies this
      ensures Valid() && nextId == old(nextId)
      ensures (r, compras) == UpdateStatusCompra(auth, id, status, old(compras))
    {
      if !IsStaff(auth) {
        return Fail(403, "Only users can update compra status");
      }
      if status.None? || status.value !in VALID_STATUSES {
        return Fail(400, "Invalid status value");
      }
      if id.None? {
        return Fail(500, "Failed to update compra status");
      }
      if id.value !in compras {
        return Fail(404, "Compra not found");
      }
      var updated := compras[id.value].(status := status.value);
      compras := compras[id.value := updated];
      r := Ok(200, updated);
    }
  }
}
