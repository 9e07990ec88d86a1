/** The front end's customer session slice: the logged-in customer record,
    their token and an `isAuthenticated` flag, with the token mirrored in
    browser storage under `clienteToken`. */
module ClienteSlice {
  import opened Common

  /** A JSON object's own properties (the customer record, action payloads). */
  type Fields = map<string, string>

  /** The slice state together with the stored `clienteToken` entry. */
  datatype State = State(cliente: Option<Fields>, token: Option<string>, isAuthenticated: bool,
                         stored: Option<string>)

  /** `payload.token`. */
  function PayloadToken(payload: Fields): (t: Option<string>)
  {
    if "token" in payload then Some(payload["token"]) else None
  }

  /** `initialState`, read once from storage: `token || null` and `!!token`,
      so an empty stored string counts as no token. */
  function Initial(stored: Option<string>): (s: State)
    ensures s.cliente == None && s.stored == stored
    ensures s.isAuthenticated <==> Truthy(stored)
    ensures s.token.Some? <==> Truthy(stored)
    ensures s.token.Some? ==> s.token == stored
  {
    var token := if Truthy(stored) then stored else None;
    State(None, token, token.Some?, stored)
  }

  /** `setCliente`: the payload becomes the customer and its `token` the
      token; storage receives the token, or the text "undefined" when the
      payload has none. */
  function SetCliente(s: State, payload: Fields): (t: State)
    ensures t.cliente == Some(payload) && t.token == PayloadToken(payload) && t.isAuthenticated
    ensures PayloadToken(payload).Some? ==> t.stored == PayloadToken(payload)
    ensures PayloadToken(payload).None? ==> t.stored == Some("undefined")
  {
    var token := PayloadToken(payload);
    State(Some(payload), token, true, Some(if token.Some? then token.value else "undefined"))
  }

  /** `logoutCliente`. */
  function LogoutCliente(s: State): (t: State)
    ensures t.cliente.None? && t.token.None? && !t.isAuthenticated && t.stored.None?
  {
    State(None, None, false, None)
  }

  /** `updateCliente`: `{ ...cliente, ...payload }` when a customer is set,
      nothing otherwise; the token, the flag and storage never change. */
  function UpdateCliente(s: State, payload: Fields): (t: State)
    ensures t.token == s.token && t.isAuthenticated == s.isAuthenticated && t.stored == s.stored
    ensures s.cliente.None? ==> t == s
    ensures s.cliente.Some? ==> t.cliente.Some? && t.cliente.value.Keys == s.cliente.value.Keys + payload.Keys
    ensures s.cliente.Some? ==> forall k :: k in payload ==> t.cliente.value[k] == payload[k]
    ensures s.cliente.Some? ==> forall k :: k in s.cliente.value && k !in payload ==>
              t.cliente.value[k] == s.cliente.value[k]
  {
    if s.cliente.Some? then s.(cliente := Some(s.cliente.value + payload)) else s
  }

  /** Logging out twice is the same as logging out once. */
  lemma LogoutIdempotent(s: State)
    ensures LogoutCliente(LogoutCliente(s)) == LogoutCliente(s)
  {
  }

  /** The three actions the slice handles. */
  datatype Action = Set(payload: Fields) | Logout | Update(patch: Fields)

  /** The reducer: after an action the session is authenticated exactly
      when it was a `setCliente`, or an `updateCliente` of an authenticated
      session; only `logoutCliente` clears a customer. */
  function Reduce(s: State, a: Action): (t: State)
    ensures t.isAuthenticated <==> a.Set? || (a.Update? && s.isAuthenticated)
    ensures t.cliente.None? <==> a.Logout? || (a.Update? && s.cliente.None?)
    ensures a.Update? ==> t.token == s.token && t.stored == s.stored
  {
    match a
    case Set(p) => SetCliente(s, p)
    case Logout => LogoutCliente(s)
    case Update(p) => UpdateCliente(s, p)
  }

  /** The state after dispatching `actions` in order. */
  function Run(s: State, actions: seq<Action>): (t: State)
    decreases |actions|
  {
    if actions == [] then s else Run(Reduce(s, actions[0]), actions[1..])
  }

  /** Whenever the slice holds a token, the session counts as authenticated
      and storage holds that same token. */
  predicate Consistent(s: State)
  {
    s.token.Some? ==> s.isAuthenticated && s.stored == s.token
  }

  /** Every action keeps the slice consistent. */
  lemma ReducePreservesConsistent(s: State, a: Action)
    requires Consistent(s)
    ensures Consistent(Reduce(s, a))
  {
  }

  /** From the initial state read out of storage, every sequence of actions
      leaves the slice consistent. */
  lemma {:induction false} RunConsistent(stored: Option<string>, actions: seq<Action>)
    ensures Consistent(Run(Initial(stored), actions))
  {
    RunPreservesConsistent(Initial(stored), actions);
  }

  lemma {:induction false} RunPreservesConsistent(s: State, actions: seq<Action>)
    requires Consistent(s)
    ensures Consistent(Run(s, actions))
    decreases |actions|
  {
    if actions != [] {
      ReducePreservesConsistent(s, actions[0]);
      RunPreservesConsistent(Reduce(s, actions[0]), actions[1..]);
    }
  }

  /** Any number of `updateCliente` actions leaves the token, the flag and
      storage as they were. */
  lemma {:induction false} UpdatesKeepSession(s: State, patches: seq<Fields>)
    ensures var t := Run(s, seq(|patches|, i requires 0 <= i < |patches| => Update(patches[i])));
            t.token == s.token && t.isAuthenticated == s.isAuthenticated && t.stored == s.stored
    decreases |patches|
  {
    var actions := seq(|patches|, i requires 0 <= i < |patches| => Update(patches[i]));
    if patches != [] {
      UpdatesKeepSession(UpdateCliente(s, patches[0]), patches[1..]);
      assert actions[1..] == seq(|patches[1..]|, i requires 0 <= i < |patches[1..]| => Update(patches[1..][i]));
    }
  }

  /** The slice as the store holds it; `stored` is the `clienteToken` entry
      of browser storage. */
  class Slice {
    var cliente: Option<Fields>
    var token: Option<string>
    var isAuthenticated: bool
    var stored: Option<string>

    function Snapshot(): State
      reads this
    {
      State(cliente, token, isAuthenticated, stored)
    }

    /** Creating the store: `initialState` from the stored token. */
    constructor (storedToken: Option<string>)
      ensures Snapshot() == Initial(storedToken)
    {
      stored := storedToken;
      token := if Truthy(storedToken) then storedToken else None;
      cliente := None;
      isAuthenticated := Truthy(storedToken);
    }

    /** `setCliente`. */
    method SetClienteReducer(payload: Fields)
      modifies this
      ensures Snapshot() == SetCliente(old(Snapshot()), payload)
    {
      cliente := Some(payload);
      token := PayloadToken(payload);
      isAuthenticated := true;
      stored := Some(if "token" in payload then payload["token"] else "undefined");
    }

    /** `logoutCliente`. */
    method LogoutClienteReducer()
      modifies this
      ensures Snapshot() == LogoutCliente(old(Snapshot()))
    {
      cliente := None;
      token := None;
      isAuthenticated := false;
      stored := None;
    }

    /** `updateCliente`. */
    method UpdateClienteReducer(payload: Fields)
      modifies this
      ensures Snapshot() == UpdateCliente(old(Snapshot()), payload)
    {
      if cliente.Some? {
        cliente := Some(cliente.value + payload);
      }
    }
  }
}
