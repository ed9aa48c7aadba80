/**
  The JSON-RPC client (`kanboardClient.callKanboardAPI`): which authentication
  header goes on the request, the request envelope, and how an exchange with the
  remote endpoint becomes either a result or an error.

  The HTTP round trip itself, base64 and JSON encoding/decoding are foreign: a
  client carries them as functions (`base64`, `transport`), so the model fixes
  what goes into them and what is made of what comes out.
 */
module Rpc {
  import opened Common
  import Json
  import Decimal

  /** The process-wide configuration: endpoint and credentials. */
  datatype Config = Config(apiEndpoint: string, apiKey: string, username: string, password: string)

  /** The two authentication schemes a request can carry. */
  datatype Auth = Basic(username: string, password: string) | ApiKey(key: string)

  /** Basic credentials only when both halves are configured; the API key otherwise. */
  function ChooseAuth(cfg: Config): (a: Auth)
    ensures a.Basic? <==> cfg.username != "" && cfg.password != ""
    ensures a.Basic? ==> a.username == cfg.username && a.password == cfg.password
    ensures a.ApiKey? ==> a.key == cfg.apiKey
  {
    if cfg.username != "" && cfg.password != "" then Basic(cfg.username, cfg.password)
    else ApiKey(cfg.apiKey)
  }

  /** The headers of every request: the content type and exactly one authentication header. */
  function Headers(cfg: Config, base64: string -> string): (h: map<string, string>)
    ensures "Content-Type" in h && h["Content-Type"] == "application/json"
    ensures ("Authorization" in h) != ("X-API-Auth" in h)
    ensures "Authorization" in h <==> cfg.username != "" && cfg.password != ""
    ensures "Authorization" in h ==>
              h["Authorization"] == "Basic " + base64(cfg.username + ":" + cfg.password)
    ensures "X-API-Auth" in h ==> h["X-API-Auth"] == cfg.apiKey
    ensures |h| == 2
  {
    var base := map["Content-Type" := "application/json"];
    match ChooseAuth(cfg)
    case Basic(user, pass) => base["Authorization" := "Basic " + base64(user + ":" + pass)]
    case ApiKey(key) => base["X-API-Auth" := key]
  }

  /** One remote procedure call: a method name and its parameters (an object, an array or null). */
  datatype RpcCall = RpcCall(name: string, params: Json.Value)

  /** The JSON-RPC 2.0 request body; the sequence identifier is always 1. */
  function Envelope(c: RpcCall): (body: Json.Value)
    ensures body.Obj? && body.fields.Keys == {"jsonrpc", "method", "id", "params"}
    ensures body.fields["jsonrpc"] == Json.Str("2.0") && body.fields["id"] == Json.Num(1)
    ensures body.fields["method"] == Json.Str(c.name) && body.fields["params"] == c.params
  {
    Json.Obj(map[
      "jsonrpc" := Json.Str("2.0"),
      "method" := Json.Str(c.name),
      "id" := Json.Num(1),
      "params" := c.params])
  }

  /** The request body determines the call: distinct calls are never sent as the same body. */
  lemma EnvelopeDeterminesCall(c1: RpcCall, c2: RpcCall)
    requires Envelope(c1) == Envelope(c2)
    ensures c1 == c2
  {
    assert Json.Str(c1.name) == Envelope(c1).fields["method"] == Json.Str(c2.name);
  }

  datatype Request = Request(endpoint: string, headers: map<string, string>, body: Json.Value)

  /** The `error` member of a response envelope. */
  datatype ErrorObject = ErrorObject(code: int, message: string)

  /** A decoded response body; `error` is None when the member is absent or null. */
  datatype ResponseEnvelope = ResponseEnvelope(jsonrpc: string, id: int, result: Json.Value, error: Option<ErrorObject>)

  datatype Body = Malformed(detail: string) | Decoded(envelope: ResponseEnvelope)

  /**
    What happened to one request: it could not be built (a bad endpoint URL),
    it could not be sent, or a response came back with a status and a body.
   */
  datatype Exchange =
    | NotBuilt(detail: string)
    | NotSent(detail: string)
    | Responded(statusCode: int, status: string, body: Body)

  datatype CallError =
    | RequestFailed(detail: string)
    | SendFailed(detail: string)
    | HttpStatus(code: int, status: string)
    | DecodeFailed(detail: string)
    | RemoteError(code: int, message: string)

  /**
    The status is checked before the body is decoded, and a present `error`
    object wins over `result`; only a 200 response whose envelope carries no
    error yields its result.
   */
  function Interpret(x: Exchange): (r: Result<Json.Value, CallError>)
    ensures r.Success? <==>
              x.Responded? && x.statusCode == 200 && x.body.Decoded? && x.body.envelope.error.None?
    ensures r.Success? ==> r.value == x.body.envelope.result
    ensures x.Responded? && x.statusCode != 200 ==> r == Failure(HttpStatus(x.statusCode, x.status))
    ensures x.Responded? && x.statusCode == 200 && x.body.Decoded? && x.body.envelope.error.Some? ==>
              r == Failure(RemoteError(x.body.envelope.error.value.code, x.body.envelope.error.value.message))
    ensures x.NotBuilt? ==> r == Failure(RequestFailed(x.detail))
    ensures x.NotSent? ==> r == Failure(SendFailed(x.detail))
    ensures x.Responded? && x.statusCode == 200 && x.body.Malformed? ==> r == Failure(DecodeFailed(x.body.detail))
  {
    match x
    case NotBuilt(d) => Failure(RequestFailed(d))
    case NotSent(d) => Failure(SendFailed(d))
    case Responded(code, status, body) =>
      if code != 200 then Failure(HttpStatus(code, status))
      else match body
        case Malformed(d) => Failure(DecodeFailed(d))
        case Decoded(env) =>
          match env.error
          case Some(e) => Failure(RemoteError(e.code, e.message))
          case None => Success(env.result)
  }

  /** An envelope's `result` is never looked at once its `error` is present. */
  lemma ErrorHidesResult(code: int, status: string, env: ResponseEnvelope, other: Json.Value)
    requires env.error.Some?
    ensures Interpret(Responded(code, status, Decoded(env))).Failure?
    ensures Interpret(Responded(code, status, Decoded(env))) ==
            Interpret(Responded(code, status, Decoded(env.(result := other))))
  {
  }

  /** A client: the configuration plus the foreign encoder and transport it hands requests to. */
  datatype KanboardClient = KanboardClient(config: Config, base64: string -> string, transport: Request -> Exchange)

  function BuildRequest(kc: KanboardClient, c: RpcCall): Request {
    Request(kc.config.apiEndpoint, Headers(kc.config, kc.base64), Envelope(c))
  }

  /** `callKanboardAPI`: build the request, hand it to the transport, interpret what comes back. */
  function Call(kc: KanboardClient, c: RpcCall): (r: Result<Json.Value, CallError>)
    ensures var x := kc.transport(Request(kc.config.apiEndpoint, Headers(kc.config, kc.base64), Envelope(c)));
            && (r.Success? <==> x.Responded? && x.statusCode == 200 && x.body.Decoded? && x.body.envelope.error.None?)
            && (r.Success? ==> r.value == x.body.envelope.result)
            && (x.Responded? && x.statusCode != 200 ==> r == Failure(HttpStatus(x.statusCode, x.status)))
  {
    Interpret(kc.transport(BuildRequest(kc, c)))
  }

  const StatusPrefix: string := "API request failed with status code: "
  const ResponseInfix: string := ", Response: "

  /** The fixed opening of each kind of client error text. */
  function Opening(e: CallError): string {
    match e
    case RequestFailed(_) => "failed to create request: "
    case SendFailed(_) => "failed to send request: "
    case HttpStatus(_, _) => StatusPrefix
    case DecodeFailed(_) => "failed to decode API response: "
    case RemoteError(_, _) => "kanboard API error: "
  }

  /** The text of the error `callKanboardAPI` returns (`err.Error()`). */
  function ErrorText(e: CallError): (t: string)
    ensures Opening(e) <= t
  {
    match e
    case RequestFailed(d) => Opening(e) + d
    case SendFailed(d) => Opening(e) + d
    case HttpStatus(code, status) =>
      StatusPrefix + (Decimal.Itoa(code) + ResponseInfix + status)
    case DecodeFailed(d) => Opening(e) + d
    case RemoteError(code, message) => Opening(e) + (message + " (Code: " + Decimal.Itoa(code) + ")")
  }

  /** The exact text the user-assignment tool compares against. */
  const ForbiddenText: string := StatusPrefix + ("403" + ResponseInfix + "403 Forbidden")

  /**
    The user-assignment tool recognises a 403 by comparing error texts; that
    comparison holds exactly for a 403 status whose status line is "403 Forbidden".
   */
  lemma ForbiddenTextMeans(e: CallError)
    ensures ErrorText(e) == ForbiddenText <==> e == HttpStatus(403, "403 Forbidden")
  {
    ItoaOf403();
    assert ErrorText(HttpStatus(403, "403 Forbidden")) == ForbiddenText;
    if ErrorText(e) == ForbiddenText {
      ErrorTextShowsKind(e, HttpStatus(403, "403 Forbidden"));
      StatusTextDetermines(e.code, e.status);
    }
  }

  /** Character 10 of each opening tells the kinds apart. */
  lemma OpeningMark(e: CallError)
    ensures |Opening(e)| > 10
    ensures Opening(e)[10] == match e
      case RequestFailed(_) => 'c'
      case SendFailed(_) => 's'
      case HttpStatus(_, _) => 't'
      case DecodeFailed(_) => 'd'
      case RemoteError(_, _) => 'P'
  {
  }

  /** Equal error texts come from errors of the same kind: the text tells which step failed. */
  lemma ErrorTextShowsKind(e1: CallError, e2: CallError)
    requires ErrorText(e1) == ErrorText(e2)
    ensures e1.RequestFailed? == e2.RequestFailed? && e1.SendFailed? == e2.SendFailed?
    ensures e1.HttpStatus? == e2.HttpStatus? && e1.DecodeFailed? == e2.DecodeFailed?
    ensures e1.RemoteError? == e2.RemoteError?
  {
    var t := ErrorText(e1);
    OpeningMark(e1);
    OpeningMark(e2);
    assert Opening(e1)[10] == t[10] == Opening(e2)[10];
  }

  lemma ItoaOf403()
    ensures Decimal.Itoa(403) == "403"
  {
    assert Decimal.Digits(4) == "4";
    assert Decimal.Digits(40) == "40";
  }

  /** The code's text ends at the first comma, so the whole text gives back code and status. */
  lemma StatusTextDetermines(code: int, status: string)
    requires ErrorText(HttpStatus(code, status)) == ForbiddenText
    ensures code == 403 && status == "403 Forbidden"
  {
    var x := Decimal.Itoa(code);
    var t := ErrorText(HttpStatus(code, status));
    assert x + ResponseInfix + status == "403" + ResponseInfix + "403 Forbidden" by {
      assert t[|StatusPrefix|..] == x + ResponseInfix + status;
      assert ForbiddenText[|StatusPrefix|..] == "403" + ResponseInfix + "403 Forbidden";
    }
    NoCommaInDecimal(code);
    SplitAtSeparator(x, "403", ResponseInfix, status, "403 Forbidden");
    ItoaOf403();
    Decimal.ItoaInjective(code, 403);
  }

  /** Two texts "head, separator, tail" are equal only if heads and tails are, when no head holds the separator's first character. */
  lemma SplitAtSeparator(x: string, y: string, sep: string, s1: string, s2: string)
    requires x + sep + s1 == y + sep + s2
    requires |sep| > 0
    requires forall i :: 0 <= i < |x| ==> x[i] != sep[0]
    requires forall i :: 0 <= i < |y| ==> y[i] != sep[0]
    ensures x == y && s1 == s2
  {
    var u := x + sep + s1;
    var v := y + sep + s2;
    SeparatorFirstAt(x, sep, s1);
    SeparatorFirstAt(y, sep, s2);
    assert |x| == |y|;
    assert x == u[..|x|] == v[..|y|] == y;
    assert s1 == u[|x| + |sep|..] == v[|y| + |sep|..] == s2;
  }

  /** In "head, separator, tail" the separator's first character first occurs right after the head. */
  lemma SeparatorFirstAt(x: string, sep: string, s: string)
    requires |sep| > 0
    requires forall i :: 0 <= i < |x| ==> x[i] != sep[0]
    ensures (x + sep + s)[|x|] == sep[0]
    ensures forall i :: 0 <= i < |x| ==> (x + sep + s)[i] != sep[0]
  {
  }

  lemma NoCommaInDecimal(n: int)
    ensures forall i :: 0 <= i < |Decimal.Itoa(n)| ==> Decimal.Itoa(n)[i] != ','
  {
    var s := Decimal.Itoa(n);
    forall i | 0 <= i < |s|
      ensures s[i] != ','
    {
      if i > 0 {
        assert s[i] == s[1..][i - 1];
      }
    }
  }
}
