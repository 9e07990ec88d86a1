/** `authMiddleware`: reads the `Authorization` header, takes the second
    space-separated piece as the bearer token (the scheme word is never
    looked at), verifies it and attaches the payload to the request. */
module AuthMiddleware {
  import opened Common
  import opened Jwt

  /** `s.split(" ")`: the pieces between single spaces, so that two spaces in
      a row produce an empty piece. */
  function Split(s: string): (parts: seq<string>)
    ensures |parts| >= 1
  {
    if s == [] then [""]
    else
      var rest := Split(s[1..]);
      if s[0] == ' ' then [""] + rest
      else [[s[0]] + rest[0]] + rest[1..]
  }

  /** `parts.join(" ")`, the inverse of `Split`. */
  function Join(parts: seq<string>): (s: string)
    requires |parts| >= 1
  {
    if |parts| == 1 then parts[0] else parts[0] + " " + Join(parts[1..])
  }

  /** Splitting loses nothing: joining the pieces gives the header back, and
      no piece holds a space. */
  lemma {:induction false} SplitJoin(s: string)
    ensures Join(Split(s)) == s
    ensures forall i :: 0 <= i < |Split(s)| ==> ' ' !in Split(s)[i]
  {
    if s != [] {
      SplitJoin(s[1..]);
      var rest := Split(s[1..]);
      if s[0] == ' ' {
        assert s == " " + s[1..];
      } else {
        assert s == [s[0]] + s[1..];
        if |rest| > 1 {
          assert Join(rest) == rest[0] + " " + Join(rest[1..]);
        }
      }
    }
  }

  /** A space-free prefix glues onto the first piece of what follows it. */
  lemma {:induction false} SplitWordPrefix(w: string, t: string)
    requires ' ' !in w
    ensures Split(w + t) == [w + Split(t)[0]] + Split(t)[1..]
  {
    if w != [] {
      assert (w + t)[1..] == w[1..] + t;
      SplitWordPrefix(w[1..], t);
      var p, rest := Split(t), Split(w[1..] + t);
      assert rest[0] == w[1..] + p[0] && rest[1..] == p[1..];
      assert [w[0]] + (w[1..] + p[0]) == w + p[0];
    } else {
      assert w + t == t;
      var p := Split(t);
      assert p == [p[0]] + p[1..];
      assert w + p[0] == p[0];
    }
  }

  /** `const [, token] = header.split(" ")`; `!token` rejects both a missing
      and an empty second piece. */
  function ExtractToken(header: string): (token: Option<string>)
    ensures token.Some? ==> token.value != "" && ' ' !in token.value
  {
    var parts := Split(header);
    SplitJoin(header);
    if |parts| >= 2 && parts[1] != "" then Some(parts[1]) else None
  }

  /** Whatever the first word is, a header `scheme + " " + token` followed by
      nothing or by further space-separated words yields `token`. */
  lemma SchemeIgnored(scheme: string, token: string, rest: string)
    requires ' ' !in scheme && ' ' !in token && token != ""
    requires rest == "" || rest[0] == ' '
    ensures ExtractToken(scheme + " " + token + rest) == Some(token)
  {
    var x := token + rest;
    assert scheme + " " + token + rest == scheme + (" " + x);
    assert (" " + x)[1..] == x;
    assert Split(" " + x) == [""] + Split(x);
    SplitWordPrefix(scheme, " " + x);
    assert scheme + "" == scheme;
    SplitWordPrefix(token, rest);
    assert Split(rest)[0] == "";
    assert token + "" == token;
    assert Split(scheme + " " + token + rest)[1] == token;
  }

  /** A header of one word, of a word and a trailing space, or of a word
      followed by two spaces, has no usable token. */
  lemma NoSecondWord(scheme: string, t: string)
    requires ' ' !in scheme
    ensures ExtractToken(scheme) == None
    ensures ExtractToken(scheme + " ") == None
    ensures ExtractToken(scheme + "  " + t) == None
  {
    SplitWordPrefix(scheme, " ");
    assert " "[1..] == "";
    SplitWordPrefix(scheme, "");
    assert scheme + "" == scheme;
    SplitWordPrefix(scheme, "  " + t);
    assert scheme + "  " + t == scheme + ("  " + t);
    assert ("  " + t)[1..] == " " + t;
    assert (" " + t)[1..] == t;
  }

  /** The decision `authMiddleware` takes on an `Authorization` header at
      time `now`: the decoded payload, or the 401 reply. */
  function Authenticate(header: Option<string>, decode: string -> Option<Claims>, now: int): (r: Reply<Payload>)
    ensures r.Fail? ==> r.status == 401
    ensures r.Fail? && r.error == "Token not provided" <==> header == None || header == Some("")
    ensures r.Fail? && r.error == "Token malformed" <==> Truthy(header) && ExtractToken(header.value).None?
    ensures r.Fail? && r.error == "Invalid or expired token" <==>
      Truthy(header) && ExtractToken(header.value).Some? && Verify(decode, ExtractToken(header.value).value, now).None?
    ensures r.Ok? <==> Truthy(header) && ExtractToken(header.value).Some?
                       && Verify(decode, ExtractToken(header.value).value, now).Some?
    ensures r.Ok? ==> Some(r.body) == Verify(decode, ExtractToken(header.value).value, now)
  {
    if !Truthy(header) then Fail(401, "Token not provided")
    else match ExtractToken(header.value)
      case None => Fail(401, "Token malformed")
      case Some(token) =>
        match Verify(decode, token, now)
        case None => Fail(401, "Invalid or expired token")
        case Some(p) => Ok(200, p)
  }

  /** The parts of an Express request the middleware reads and writes. */
  class Request {
    /** `req.headers["authorization"]`. */
    const authorization: Option<string>
    /** `req.auth`. */
    var auth: Option<Payload>
    /** How many times `next()` has been called for this request. */
    var nextCalls: nat

    constructor (authorization: Option<string>)
      ensures this.authorization == authorization && auth == None && nextCalls == 0
    {
      this.authorization := authorization;
      auth := None;
      nextCalls := 0;
    }
  }

  /** `authMiddleware(req, res, next)`: on success `req.auth` becomes the
      decoded payload and `next` runs once; otherwise the 401 reply is sent
      and the request is left as it was. */
  method RunAuthMiddleware(req: Request, decode: string -> Option<Claims>, now: int) returns (g: Gate)
    modifies req
    ensures Authenticate(req.authorization, decode, now).Ok? ==>
      g == Pass && req.auth == Some(Authenticate(req.authorization, decode, now).body)
      && req.nextCalls == old(req.nextCalls) + 1
    ensures Authenticate(req.authorization, decode, now).Fail? ==>
      g == Deny(401, Authenticate(req.authorization, decode, now).error)
      && req.auth == old(req.auth) && req.nextCalls == old(req.nextCalls)
  {
    var header := req.authorization;
    if header == None || header == Some("") {
      return Deny(401, "Token not provided");
    }
    var token := ExtractToken(header.value);
    if token.None? {
      return Deny(401, "Token malformed");
    }
    var decoded := Verify(decode, token.value, now);
    if decoded.None? {
      return Deny(401, "Invalid or expired token");
    }
    req.auth := decoded;
    req.nextCalls := req.nextCalls + 1;
    g := Pass;
  }
}
