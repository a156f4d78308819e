/**
  The tower client of client.go: scheme and header rules, the login (Auth), the
  Start envelope and the set-up of a subscription. Network round trips, JSON
  encoding and decoding and unique identifiers are parameters: the model receives
  their outcomes instead of computing them.
 */
module TowerClient {

  import opened Wrappers
  import opened GoFormat
  import opened Protocol
  import opened Channels

  /** The login credentials, carried as an opaque value. */
  datatype AuthInformation = AuthInformation(fields: map<string, string>)

  /** A value of the `variables` mapping of a request. */
  datatype Variable = LoginInput(info: AuthInformation) | Json(raw: seq<byte>)

  /** A GraphQL request: the query text and its variables. */
  datatype Request = Request(query: string, variables: map<string, Variable>)

  const LoginMutation: string := "mutation($data: LoginInput!) {login(data: $data) {token}}"

  /** The request Auth sends: the login mutation with the credentials as its `data` variable. */
  function AuthRequest(info: AuthInformation): (r: Request)
    ensures r.query == LoginMutation
    ensures r.variables.Keys == {"data"} && r.variables["data"] == LoginInput(info)
  {
    Request(LoginMutation, map["data" := LoginInput(info)])
  }

  /**
    The errors the client returns (its fmt.Errorf calls), one per cause, with the
    underlying error's text.
   */
  datatype ClientError =
    | MarshalRequestFailed(reason: string)
    | ParseUrlFailed(url: string, reason: string)
    | DialFailed(url: string, reason: string)
    | WriteMessageFailed(msg: Message, reason: string)
    | LoginFailed(reason: string)
    | UnexpectedErrors(errors: seq<ResponseError>)
    | TokenUnmarshalFailed(reason: string)

  /**
    The value found at `data.login.token` of the login response, as json.Unmarshal
    into a string sees it: a string, JSON `null` (which leaves the target string as
    it was and reports no error), or something that fails to decode (a missing path,
    another JSON type, malformed JSON).
   */
  datatype TokenJson = TokenString(value: string) | TokenNull | TokenInvalid(reason: string)

  /** A parsed URL: its scheme and everything after the scheme's colon. */
  datatype UrlParts = UrlParts(scheme: string, rest: string)

  /** A `*url.URL`; setScheme changes its scheme in place. */
  class URL {
    var scheme: string
    const rest: string

    constructor (scheme: string, rest: string)
      ensures this.scheme == scheme && this.rest == rest
    {
      this.scheme, this.rest := scheme, rest;
    }

    /** `u.String()`. */
    function String(): string
      reads this
    {
      scheme + ":" + rest
    }
  }

  const ContentType: string := "Content-Type"
  const Accept: string := "Accept"
  const Authorization: string := "Authorization"
  const SecWebsocketProtocol: string := "Sec-Websocket-Protocol"
  const JsonMediaType: string := "application/json"
  const SubProtocol: string := "graphql-ws"

  /** An `http.Header`: each key maps to its list of values. */
  class Header {
    var values: map<string, seq<string>>

    constructor ()
      ensures values == map[]
    {
      values := map[];
    }

    /** `header.Set(key, value)`: the key's values become exactly [value]. */
    method Set(key: string, value: string)
      modifies this
      ensures values == old(values)[key := [value]]
    {
      values := values[key := [value]];
    }
  }

  /**
    The scheme setScheme leaves: secure when the URL said `https` or `wss`, the
    push transport (`ws`) when `websocket` is set and the query transport (`http`)
    otherwise. These are the URI schemes of RFC 6455, section 3, and of HTTP.
   */
  function SchemeFor(scheme: string, websocket: bool): (r: string)
    ensures r in {"http", "https", "ws", "wss"}
    ensures (r == "https" || r == "wss") <==> (scheme == "https" || scheme == "wss")
    ensures (r[..2] == "ws") <==> websocket
  {
    match (scheme == "https" || scheme == "wss", websocket)
    case (false, false) => assert "http"[0] == 'h'; "http"
    case (true, false) => assert "https"[0] == 'h'; "https"
    case (false, true) => assert "ws"[..2] == "ws"; "ws"
    case (true, true) => assert "wss"[..2] == "ws"; "wss"
  }

  /** Applying setScheme twice with the same transport gives the scheme of applying it once. */
  lemma SchemeForIdempotent(scheme: string, websocket: bool)
    ensures SchemeFor(SchemeFor(scheme, websocket), websocket) == SchemeFor(scheme, websocket)
  {
  }

  /** The keys setHeader writes. */
  predicate IsSetHeaderKey(k: string) {
    k == ContentType || k == Accept || k == Authorization || k == SecWebsocketProtocol
  }

  /**
    The header setHeader leaves behind: the media type on Content-Type and Accept,
    the token on Authorization when there is one, and on the push handshake the
    sub-protocol name (RFC 6455, section 4.1); every other key as it was.
   */
  function HeadersFor(h: map<string, seq<string>>, token: string, websocket: bool): (r: map<string, seq<string>>)
    ensures ContentType in r && r[ContentType] == [JsonMediaType]
    ensures Accept in r && r[Accept] == [JsonMediaType]
    ensures token != "" ==> Authorization in r && r[Authorization] == [token]
    ensures token == "" ==> (Authorization in r <==> Authorization in h)
    ensures token == "" && Authorization in h ==> r[Authorization] == h[Authorization]
    ensures websocket ==> SecWebsocketProtocol in r && r[SecWebsocketProtocol] == [SubProtocol]
    ensures !websocket ==> (SecWebsocketProtocol in r <==> SecWebsocketProtocol in h)
    ensures !websocket && SecWebsocketProtocol in h ==> r[SecWebsocketProtocol] == h[SecWebsocketProtocol]
    ensures forall k :: !IsSetHeaderKey(k) ==> (k in r <==> k in h)
    ensures forall k :: !IsSetHeaderKey(k) && k in h ==> r[k] == h[k]
  {
    var media := h[ContentType := [JsonMediaType]][Accept := [JsonMediaType]];
    var authorized := if token != "" then media[Authorization := [token]] else media;
    if websocket then authorized[SecWebsocketProtocol := [SubProtocol]] else authorized
  }

  /** setHeader is idempotent: a second call with the same token and transport changes nothing. */
  lemma HeadersForIdempotent(h: map<string, seq<string>>, token: string, websocket: bool)
    ensures HeadersFor(HeadersFor(h, token, websocket), token, websocket) == HeadersFor(h, token, websocket)
  {
  }

  /**
    What Auth returns and the token it leaves, given the outcome of the login query
    and the value at `data.login.token` of its response.
   */
  function AuthOutcome(login: Result<Response, string>, tokenAt: seq<byte> -> TokenJson, token: string)
    : (o: (Option<ClientError>, string))
    ensures o.0.None? <==> login.Success? && !HasErrors(login.value) && !tokenAt(login.value.data).TokenInvalid?
    ensures o.0.Some? ==> o.1 == token
    ensures login.Failure? ==> o.0 == Some(LoginFailed(login.error))
    ensures login.Success? && HasErrors(login.value) ==> o.0 == Some(UnexpectedErrors(login.value.errors))
    ensures o.0.None? && tokenAt(login.value.data).TokenString? ==> o.1 == tokenAt(login.value.data).value
    ensures o.0.None? && tokenAt(login.value.data).TokenNull? ==> o.1 == token
  {
    match login
    case Failure(err) => (Some(LoginFailed(err)), token)
    case Success(resp) =>
      if HasErrors(resp) then (Some(UnexpectedErrors(resp.errors)), token)
      else
        match tokenAt(resp.data)
        case TokenString(t) => (None, t)
        case TokenNull => (None, token)
        case TokenInvalid(reason) => (Some(TokenUnmarshalFailed(reason)), token)
  }

  /**
    The Start envelope Subscription sends: the given identifier, the Start kind and
    the serialized request, or the marshalling error.
   */
  function StartEnvelope(id: string, req: Request, marshal: Request -> Result<seq<byte>, string>)
    : (r: Result<Message, ClientError>)
    ensures r.Success? <==> marshal(req).Success?
    ensures r.Success? ==> r.value == Message(id, StartMsg, marshal(req).value)
    ensures r.Failure? ==> r.error == MarshalRequestFailed(marshal(req).error)
  {
    match marshal(req)
    case Success(payload) => Success(Message(id, StartMsg, payload))
    case Failure(err) => Failure(MarshalRequestFailed(err))
  }

  /**
    The outcomes of the network steps a subscription depends on: url.Parse, the
    websocket dial (given the URL text and the handshake header, it yields what the
    peer will send), the error every read reports once those are read, and
    conn.WriteJSON (the error text when the write fails).
   */
  datatype Network = Network(
    parse: string -> Result<UrlParts, string>,
    dial: (string, map<string, seq<string>>) -> Result<seq<ReadResult>, string>,
    endOfStream: string,
    write: Message -> Option<string>)

  /** The URL text the push handshake dials. */
  function HandshakeUrl(parts: UrlParts): string {
    SchemeFor(parts.scheme, true) + ":" + parts.rest
  }

  /** What a successful Subscription hands back: the delivery channel, the stop signal, the connection and the envelope sent. */
  datatype Subscribed = Subscribed(respChan: ResponseChan, stop: Signal, conn: Conn, start: Message)

  class Client {
    const url: string
    const authInfo: AuthInformation
    var token: string

    constructor (url: string, authInfo: AuthInformation)
      ensures this.url == url && this.authInfo == authInfo && token == ""
    {
      this.url, this.authInfo, token := url, authInfo, "";
    }

    /** setScheme: rewrite the URL's scheme for the transport. */
    method SetScheme(u: URL, websocket: bool)
      modifies u
      ensures u.scheme == SchemeFor(old(u.scheme), websocket)
    {
      var secure := false;
      if u.scheme == "https" || u.scheme == "wss" {
        secure := true;
      }
      u.scheme := "http";
      if websocket {
        u.scheme := "ws";
      }
      if secure {
        u.scheme := u.scheme + "s";
      }
    }

    /** setHeader: write the media type, the token and, for the push transport, the sub-protocol. */
    method SetHeader(header: Header, websocket: bool)
      modifies header
      ensures header.values == HeadersFor(old(header.values), token, websocket)
    {
      header.Set(ContentType, JsonMediaType);
      header.Set(Accept, JsonMediaType);
      if token != "" {
        header.Set(Authorization, token);
      }
      if websocket {
        header.Set(SecWebsocketProtocol, SubProtocol);
      }
    }

    /**
      Auth: send the login query (its outcome is `query`'s) and keep the token found
      at `data.login.token`. On every failure the token is left as it was.
     */
    method Auth(query: Request -> Result<Response, string>, tokenAt: seq<byte> -> TokenJson)
      returns (err: Option<ClientError>)
      modifies this
      ensures (err, token) == AuthOutcome(query(AuthRequest(authInfo)), tokenAt, old(token))
    {
      var resp := query(AuthRequest(authInfo));
      if resp.Failure? {
        return Some(LoginFailed(resp.error));
      }
      if |resp.value.errors| != 0 {
        return Some(UnexpectedErrors(resp.value.errors));
      }
      var raw := tokenAt(resp.value.data);
      if raw.TokenInvalid? {
        return Some(TokenUnmarshalFailed(raw.reason));
      }
      if raw.TokenString? {
        token := raw.value;
      }
      return None;
    }

    /**
      What newWebsocketConn yields, read off the network's answers: the peer's
      envelopes for a connection, or the parse or dial failure.
     */
    function Dialled(net: Network): Result<seq<ReadResult>, ClientError>
      reads this
    {
      match net.parse(url)
      case Failure(e) => Failure(ParseUrlFailed(url, e))
      case Success(parts) =>
        var target := HandshakeUrl(parts);
        match net.dial(target, HeadersFor(map[], token, true))
        case Failure(e) => Failure(DialFailed(target, e))
        case Success(peer) => Success(peer)
    }

    /** newWebsocketConn: parse the URL, switch it to the push transport and dial with the handshake header. */
    method NewWebsocketConn(net: Network) returns (r: Result<Conn, ClientError>)
      ensures Dialled(net).Failure? ==> r == Failure(Dialled(net).error)
      ensures Dialled(net).Success? ==> r.Success? && r.value.incoming == Dialled(net).value
      ensures net.parse(url).Failure? ==> r == Failure(ParseUrlFailed(url, net.parse(url).error))
      ensures net.parse(url).Success? ==>
                var target := HandshakeUrl(net.parse(url).value);
                var dialed := net.dial(target, HeadersFor(map[], token, true));
                && (dialed.Failure? ==> r == Failure(DialFailed(target, dialed.error)))
                && (dialed.Success? ==>
                      && r.Success? && fresh(r.value) && r.value.Valid()
                      && r.value.incoming == dialed.value && r.value.endOfStream == net.endOfStream
                      && r.value.pos == 0 && !r.value.closed && r.value.releases == 0)
    {
      var header := new Header();
      var parsed := net.parse(url);
      if parsed.Failure? {
        return Failure(ParseUrlFailed(url, parsed.error));
      }
      var u := new URL(parsed.value.scheme, parsed.value.rest);
      SetScheme(u, true);
      SetHeader(header, true);
      var dialed := net.dial(u.String(), header.values);
      if dialed.Failure? {
        return Failure(DialFailed(u.String(), dialed.error));
      }
      var conn := new Conn(dialed.value, net.endOfStream);
      return Success(conn);
    }

    /**
      Subscription: build the Start envelope, open the push connection and write the
      envelope; on success hand back the delivery channel and the stop signal the
      pump will use. `connOpened` is the connection, if one was opened: one whose write
      failed is released, once, before returning.
     */
    method Subscription(req: Request, id: string, marshal: Request -> Result<seq<byte>, string>, net: Network)
      returns (r: Result<Subscribed, ClientError>, ghost connOpened: Option<Conn>)
      ensures var m := StartEnvelope(id, req, marshal);
              m.Failure? ==> r == Failure(m.error) && connOpened.None?
      ensures var m, d := StartEnvelope(id, req, marshal), Dialled(net);
              m.Success? && d.Failure? ==> r == Failure(d.error) && connOpened.None?
      ensures var m, d := StartEnvelope(id, req, marshal), Dialled(net);
              m.Success? && d.Success? && net.write(m.value).Some? ==>
                && r == Failure(WriteMessageFailed(m.value, net.write(m.value).value))
                && connOpened.Some? && fresh(connOpened.value)
                && connOpened.value.incoming == d.value && connOpened.value.endOfStream == net.endOfStream
                && connOpened.value.closed && connOpened.value.releases == 1
      ensures var m, d := StartEnvelope(id, req, marshal), Dialled(net);
              m.Success? && d.Success? && net.write(m.value).None? ==>
                && r.Success? && r.value.start == m.value
                && fresh(r.value.respChan) && r.value.respChan.sent == [] && !r.value.respChan.closed
                && fresh(r.value.stop) && !r.value.stop.closed
                && fresh(r.value.conn) && r.value.conn.Valid() && r.value.conn.pos == 0
                && r.value.conn.incoming == d.value && r.value.conn.endOfStream == net.endOfStream
                && !r.value.conn.closed && r.value.conn.releases == 0
                && connOpened == Some(r.value.conn)
    {
      var respChan := new ResponseChan();
      var msg := StartEnvelope(id, req, marshal);
      if msg.Failure? {
        return Failure(msg.error), None;
      }
      var dialed := NewWebsocketConn(net);
      if dialed.Failure? {
        return Failure(dialed.error), None;
      }
      var conn := dialed.value;
      var writeErr := net.write(msg.value);
      if writeErr.Some? {
        conn.Close();
        return Failure(WriteMessageFailed(msg.value, writeErr.value)), Some(conn);
      }
      var stop := new Signal();
      return Success(Subscribed(respChan, stop, conn, msg.value)), Some(conn);
    }
  }
}
