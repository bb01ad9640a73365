/**
 * The option-chain session client: a cookie bootstrap against the
 * option-chain page, then the data request, re-bootstrapping and retrying
 * once when the server answers 401.
 *
 * The network is an input: `net` is the sequence of replies the server
 * (or the transport) will give, one per request, in order.  A request
 * made when no reply is left fails like a transport error.  Sessions are
 * numbered in order of creation so that a fresh one can be told apart
 * from the one it replaced.
 */
module HttpSession {

  import opened Wrappers
  import opened Chain

  /** What one request gets back: a response, or an exception raised by the transport. */
  datatype Reply =
    | Response(status: int, text: string, json: Option<Payload>, cookies: map<string, string>)
    | Failure(reason: string)

  datatype SessionState = NoSession | Live(id: nat) | ClosedSession(id: nat)

  /** The two kinds of request: the page that hands out cookies, and the data itself. */
  datatype Request = Bootstrap | Fetch

  /** All the state the client's methods read and change. */
  datatype Client = Client(session: SessionState, cookies: map<string, string>, created: nat,
                           log: seq<Request>, net: seq<Reply>)

  function Digit(d: nat): char
    requires d < 10
  {
    "0123456789"[d]
  }

  function NatToString(n: nat): (s: string)
    ensures |s| > 0
  {
    if n < 10 then [Digit(n)] else NatToString(n / 10) + [Digit(n % 10)]
  }

  /** `str(n)`. */
  function IntToString(n: int): string {
    if n < 0 then "-" + NatToString(-n) else NatToString(n)
  }

  /** The next reply of the network, and what is left of it. */
  function NextReply(net: seq<Reply>): (Reply, seq<Reply>) {
    if net == [] then (Failure("connection error"), []) else (net[0], net[1..])
  }

  /**
   * One request on the current session.  A closed session raises at once
   * without touching the network.
   */
  function SendSpec(c: Client, req: Request): (r: (Reply, Client))
    ensures r.1.session == c.session && r.1.cookies == c.cookies && r.1.created == c.created
  {
    if !c.session.Live? then (Failure("Session is closed"), c)
    else
      var (reply, rest) := NextReply(c.net);
      (reply, c.(log := c.log + [req], net := rest))
  }

  /**
   * `initialize_session`: a new session; cookies replaced by the page's
   * only on status 200; a transport exception closes the new session,
   * leaves none and is raised again (the `Some` error).
   */
  function InitSpec(c: Client): (Option<string>, Client) {
    var c0 := c.(session := Live(c.created), created := c.created + 1);
    var (reply, c1) := SendSpec(c0, Bootstrap);
    if reply.Failure? then (Some(reply.reason), c1.(session := NoSession))
    else if reply.status == 200 then (None, c1.(cookies := reply.cookies))
    else (None, c1)
  }

  /** The response body as `response.text()` returns it, or as `response.json()` decodes it. */
  datatype Body = Text(text: string) | Document(doc: Payload)

  function Read(reply: Reply, asJson: bool): (r: Result<Body, string>)
    requires reply.Response?
    ensures r.Ok? ==> (r.value.Document? <==> asJson)
    ensures !asJson ==> r == Ok(Text(reply.text))
  {
    if !asJson then Ok(Text(reply.text))
    else if reply.json.Some? then Ok(Document(reply.json.value))
    else Err("Attempt to decode JSON")
  }

  /**
   * The `try` block of the data request: the request, and on 401 a new
   * session and a second request whose status is not looked at.
   */
  function TrySpec(c: Client, asJson: bool): (r: (Result<Body, string>, Client))
    ensures r.0.Ok? ==> (r.0.value.Document? <==> asJson)
  {
    var (r1, c1) := SendSpec(c, Fetch);
    if r1.Failure? then (Err(r1.reason), c1)
    else if r1.status == 401 then
      var (e2, c2) := InitSpec(c1);
      if e2.Some? then (Err(e2.value), c2)
      else
        var (r3, c3) := SendSpec(c2, Fetch);
        if r3.Failure? then (Err(r3.reason), c3) else (Read(r3, asJson), c3)
    else if r1.status == 200 then (Read(r1, asJson), c1)
    else (Err("Unexpected status code: " + IntToString(r1.status)), c1)
  }

  /** A session first if there is none; a bootstrap failure there is raised before the request. */
  function EnsureSession(c: Client): (Option<string>, Client) {
    if c.session.NoSession? then InitSpec(c) else (None, c)
  }

  /** `get_data`: the body text, or the error it raises. */
  function GetDataSpec(c: Client): (Result<string, string>, Client) {
    var (e0, c0) := EnsureSession(c);
    if e0.Some? then (Err(e0.value), c0)
    else
      var (r, c1) := TrySpec(c0, false);
      (if r.Ok? then Ok(r.value.text) else Err(r.error), c1)
  }

  /** `close`: closes the session if there is one; the field keeps the closed session. */
  function CloseSpec(c: Client): (r: Client)
    ensures r.session.NoSession? <==> c.session.NoSession?
    ensures r.cookies == c.cookies && r.log == c.log && r.net == c.net
  {
    match c.session
    case NoSession => c
    case Live(id) => c.(session := ClosedSession(id))
    case ClosedSession(_) => c
  }

  /** The model of `NiftyOptionChain`: its session and cookies, and the network it talks to. */
  class NiftyOptionChain {
    var session: SessionState
    var cookies: map<string, string>
    var created: nat
    var log: seq<Request>
    var net: seq<Reply>

    function State(): Client
      reads this
    {
      Client(session, cookies, created, log, net)
    }

    constructor(network: seq<Reply>)
      ensures State() == Client(NoSession, map[], 0, [], network)
    {
      session := NoSession;
      cookies := map[];
      created := 0;
      log := [];
      net := network;
    }

    method Send(req: Request) returns (reply: Reply)
      modifies this
      ensures (reply, State()) == SendSpec(old(State()), req)
    {
      if !session.Live? {
        return Failure("Session is closed");
      }
      if net == [] {
        reply := Failure("connection error");
      } else {
        reply := net[0];
        net := net[1..];
      }
      log := log + [req];
    }

    method InitializeSession() returns (error: Option<string>)
      modifies this
      ensures (error, State()) == InitSpec(old(State()))
    {
      session := Live(created);
      created := created + 1;
      var reply := Send(Bootstrap);
      if reply.Failure? {
        session := NoSession;
        return Some(reply.reason);
      }
      if reply.status == 200 {
        cookies := reply.cookies;
      }
      error := None;
    }

    method GetData() returns (r: Result<string, string>)
      modifies this
      ensures (r, State()) == GetDataSpec(old(State()))
    {
      if session.NoSession? {
        var e := InitializeSession();
        if e.Some? {
          return Err(e.value);
        }
      }
      var first := Send(Fetch);
      if first.Failure? {
        return Err(first.reason);
      }
      if first.status == 401 {
        var e := InitializeSession();
        if e.Some? {
          return Err(e.value);
        }
        var second := Send(Fetch);
        if second.Failure? {
          return Err(second.reason);
        }
        r := Ok(second.text);
      } else if first.status == 200 {
        r := Ok(first.text);
      } else {
        r := Err("Unexpected status code: " + IntToString(first.status));
      }
    }

    method Close()
      modifies this
      ensures State() == CloseSpec(old(State()))
    {
      if session.Live? {
        session := ClosedSession(session.id);
      }
    }
  }

  /**
   * A bootstrap replaces the cookies only when the page answers 200; a
   * transport failure leaves no session and raises; otherwise the new
   * session is the freshly created one.
   */
  lemma InitOutcome(c: Client)
    ensures var (e, c1) := InitSpec(c);
      var reply := NextReply(c.net).0;
      c1.log == c.log + [Bootstrap] && c1.net == NextReply(c.net).1 &&
      c1.cookies == (if reply.Response? && reply.status == 200 then reply.cookies else c.cookies) &&
      (e.Some? <==> reply.Failure?) &&
      (e.Some? ==> c1.session == NoSession) &&
      (e.None? ==> c1.session == Live(c.created))
  {
  }

  /** The `try` block makes no request on a closed session, otherwise one, or three after a 401. */
  lemma TryRequests(c: Client, asJson: bool)
    ensures TrySpec(c, asJson).1.log in
      {c.log, c.log + [Fetch], c.log + [Fetch, Bootstrap], c.log + [Fetch, Bootstrap, Fetch]}
    ensures !c.session.Live? ==> TrySpec(c, asJson) == (Err("Session is closed"), c)
  {
    assert c.log + [Fetch] + [Bootstrap] == c.log + [Fetch, Bootstrap];
    assert c.log + [Fetch] + [Bootstrap] + [Fetch] == c.log + [Fetch, Bootstrap, Fetch];
  }

  /**
   * `get_data` makes at most two data requests and at most two bootstraps,
   * and starts with a bootstrap when there is no session.
   */
  lemma GetDataRequests(c: Client)
    ensures var c1 := GetDataSpec(c).1;
      c1.log in {c.log, c.log + [Bootstrap], c.log + [Fetch], c.log + [Bootstrap, Fetch],
                 c.log + [Fetch, Bootstrap], c.log + [Fetch, Bootstrap, Fetch],
                 c.log + [Bootstrap, Fetch, Bootstrap], c.log + [Bootstrap, Fetch, Bootstrap, Fetch]}
    ensures c.session.NoSession? ==> |GetDataSpec(c).1.log| > |c.log| && GetDataSpec(c).1.log[|c.log|] == Bootstrap
  {
    var (e0, c0) := EnsureSession(c);
    TryRequests(c0, false);
    if c.session.NoSession? {
      var l := c.log + [Bootstrap];
      assert c0.log == l;
      assert l + [Fetch] == c.log + [Bootstrap, Fetch];
      assert l + [Fetch, Bootstrap] == c.log + [Bootstrap, Fetch, Bootstrap];
      assert l + [Fetch, Bootstrap, Fetch] == c.log + [Bootstrap, Fetch, Bootstrap, Fetch];
      var c1 := GetDataSpec(c).1;
      assert c1.log[..|l|] == l;
    }
  }

  /** On a live session a 200 returns the body and leaves session and cookies as they were. */
  lemma GetDataOk(c: Client, text: string, json: Option<Payload>, jar: map<string, string>)
    requires c.session.Live? && |c.net| > 0 && c.net[0] == Response(200, text, json, jar)
    ensures GetDataSpec(c).0 == Ok(text)
    ensures GetDataSpec(c).1 == c.(log := c.log + [Fetch], net := c.net[1..])
  {
  }

  /**
   * On a live session a 401 starts a new session and returns the body of
   * the second request, whatever its status.
   */
  lemma GetDataUnauthorized(c: Client, boot: Reply, second: Reply)
    requires c.session.Live? && |c.net| >= 3 && c.net[0].Response? && c.net[0].status == 401
    requires c.net[1].Response? && c.net[2].Response?
    ensures GetDataSpec(c).0 == Ok(c.net[2].text)
    ensures GetDataSpec(c).1.session == Live(c.created)
    ensures GetDataSpec(c).1.log == c.log + [Fetch, Bootstrap, Fetch]
  {
    assert c.net[1..][1..] == c.net[2..];
    assert c.log + [Fetch] + [Bootstrap] + [Fetch] == c.log + [Fetch, Bootstrap, Fetch];
  }

  /** On a live session any other status raises, naming it. */
  lemma GetDataUnexpected(c: Client)
    requires c.session.Live? && |c.net| > 0 && c.net[0].Response?
    requires c.net[0].status != 200 && c.net[0].status != 401
    ensures GetDataSpec(c).0 == Err("Unexpected status code: " + IntToString(c.net[0].status))
  {
  }

  /** A closed session raises before any request; `close` acts only on a session that exists. */
  lemma ClosedSessionRaises(c: Client)
    requires c.session.ClosedSession?
    ensures GetDataSpec(c) == (Err("Session is closed"), c)
    ensures CloseSpec(c) == c && CloseSpec(c.(session := NoSession)) == c.(session := NoSession)
  {
  }
}
