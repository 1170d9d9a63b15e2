/**
 * The Wordstat API client: request shaping (URL, bearer header, bodies built only from
 * the parameters the caller gave) and normalisation of error responses. The HTTP
 * transport is a parameter `send`, from the request the client builds to what came back.
 */
module Client {
  import opened Wrappers
  import opened JsonValue

  const API_BASE_URL: string := "https://api.wordstat.yandex.net"
  const TOP_REQUESTS_PATH: string := "/v1/topRequests"
  const DYNAMICS_PATH: string := "/v1/dynamics"
  const REGIONS_PATH: string := "/v1/regions"
  const REGIONS_TREE_PATH: string := "/v1/getRegionsTree"
  const USER_INFO_PATH: string := "/v1/userInfo"

  const TOKEN_REQUIRED: string := "WORDSTAT_API_TOKEN is required"
  const ERROR_PREFIX: string := "Wordstat API error ("

  datatype Period = Monthly | Weekly | Daily
  datatype Device = All | Desktop | Phone | Tablet

  function PeriodName(p: Period): string
  {
    match p
    case Monthly => "monthly"
    case Weekly => "weekly"
    case Daily => "daily"
  }

  function DeviceName(d: Device): string
  {
    match d
    case All => "all"
    case Desktop => "desktop"
    case Phone => "phone"
    case Tablet => "tablet"
  }

  datatype TopRequestsParams = TopRequestsParams(phrase: string, regions: Option<seq<int>>, numPhrases: Option<int>)
  datatype DynamicsParams = DynamicsParams(
    phrase: string, period: Period, fromDate: string,
    toDate: Option<string>, regions: Option<seq<int>>, devices: Option<Device>)
  datatype RegionsParams = RegionsParams(phrase: string)

  /** A request body: a JSON object's fields. */
  type Body = map<string, Json>

  /** What the client hands to `fetch`. */
  datatype HttpRequest = HttpRequest(url: string, httpMethod: string, headers: seq<(string, string)>, body: Option<Body>)

  /** What `fetch` produced: a network failure, or a response with its status, its raw
      text, and that text as parsed by `JSON.parse` (`None` when it is not JSON). */
  datatype Exchange = NetworkFailure | Response(status: nat, text: string, parsed: Option<Json>)

  /** The errors that leave the client. */
  datatype ClientError =
    | ApiError(message: string)   // a non-2xx status
    | TransportError              // `fetch` itself rejected
    | ParseError                  // a 2xx body that is not JSON
    | DetailTypeError             // converting the error detail to a string threw

  function JsonNumbers(xs: seq<int>): (j: Json)
    ensures j.JArr? && |j.items| == |xs|
    ensures forall i :: 0 <= i < |xs| ==> j.items[i] == JNum(xs[i])
  {
    JArr(seq(|xs|, i requires 0 <= i < |xs| => JNum(xs[i])))
  }

  function OptNumbers(xs: Option<seq<int>>): Option<Json>
  {
    if xs.Some? then Some(JsonNumbers(xs.value)) else None
  }

  /** The first header named `name`, if any. */
  function HeaderValue(headers: seq<(string, string)>, name: string): (v: Option<string>)
    ensures v.Some? ==> (name, v.value) in headers
    ensures v.None? ==> forall h :: h in headers ==> h.0 != name
    decreases |headers|
  {
    if headers == [] then None
    else if headers[0].0 == name then Some(headers[0].1)
    else HeaderValue(headers[1..], name)
  }

  /** The request `request(endpoint, body)` passes to `fetch`: a POST to the fixed base
      URL plus the endpoint path, with the bearer credential in the `Authorization`
      header (section 2.1 of RFC 6750) and a body exactly when one was given. */
  function Outbound(token: string, endpoint: string, body: Option<Body>): (req: HttpRequest)
    ensures req.url == API_BASE_URL + endpoint
    ensures req.httpMethod == "POST"
    ensures HeaderValue(req.headers, "Authorization") == Some("Bearer " + token)
    ensures HeaderValue(req.headers, "Content-Type") == Some("application/json")
    ensures req.body == body
  {
    HttpRequest(
      API_BASE_URL + endpoint, "POST",
      [("Authorization", "Bearer " + token), ("Content-Type", "application/json")],
      body)
  }

  /** `response.ok`. */
  predicate IsOk(status: nat)
    ensures IsOk(status) <==> status / 100 == 2
  {
    200 <= status <= 299
  }

  /** The value of `errorMessage` for an error response: `message || error || errorText`
      on the parsed body. A body that does not parse, or parses to `null` (reading a
      property of it throws and is caught), gives the raw text; so does any non-object.
      The value is converted to a string only when it is interpolated into the message. */
  function ErrorDetail(text: string, parsed: Option<Json>): (d: Json)
    ensures Truthy(d) || d == JStr(text)
    ensures parsed.None? ==> d == JStr(text)
    ensures parsed.Some? && !parsed.value.JObj? ==> d == JStr(text)
    ensures parsed.Some? && parsed.value.JObj? ==>
      var fields := parsed.value.fields;
      if "message" in fields && Truthy(fields["message"]) then d == fields["message"]
      else if "error" in fields && Truthy(fields["error"]) then d == fields["error"]
      else d == JStr(text)
  {
    if parsed.None? || parsed.value.JNull? then JStr(text)
    else
      var message := Property(parsed.value, "message");
      var error := Property(parsed.value, "error");
      if message.Some? && Truthy(message.value) then message.value
      else if error.Some? && Truthy(error.value) then error.value
      else JStr(text)
  }

  /** The message of the error thrown for a non-2xx status. */
  function ErrorMessage(status: nat, detail: string): (m: string)
    ensures ERROR_PREFIX <= m
  {
    ERROR_PREFIX + NatToString(status) + "): " + detail
  }

  /** The status code a message of the form `Wordstat API error (<status>): ...` names. */
  function StatusOf(message: string): Option<nat>
  {
    if ERROR_PREFIX <= message then
      var digits := LeadingDigits(message[|ERROR_PREFIX|..]);
      if digits != [] && |ERROR_PREFIX| + |digits| < |message| && message[|ERROR_PREFIX| + |digits|] == ')'
      then Some(ParseNat(digits)) else None
    else None
  }

  /** Every error message names the status code it came from, and the text after the
      prefix is the detail unchanged. */
  lemma {:induction false} ErrorMessageNamesStatus(status: nat, detail: string)
    ensures StatusOf(ErrorMessage(status, detail)) == Some(status)
    ensures ErrorMessage(status, detail)[|ErrorMessage(status, detail)| - |detail|..] == detail
  {
    var m := ErrorMessage(status, detail);
    var digits := NatToString(status);
    var rest := "): " + detail;
    assert m == ERROR_PREFIX + (digits + rest);
    assert m[|ERROR_PREFIX|..] == digits + rest;
    LeadingDigitsOf(digits, rest);
    assert m[|ERROR_PREFIX| + |digits|] == rest[0] == ')';
    ParseNatToString(status);
  }

  /** Two error messages are equal only if the statuses and the details are. */
  lemma ErrorMessageInjective(s1: nat, d1: string, s2: nat, d2: string)
    requires ErrorMessage(s1, d1) == ErrorMessage(s2, d2)
    ensures s1 == s2 && d1 == d2
  {
    ErrorMessageNamesStatus(s1, d1);
    ErrorMessageNamesStatus(s2, d2);
    var m := ErrorMessage(s1, d1);
    var tail := ERROR_PREFIX + NatToString(s1) + "): ";
    assert m == tail + d1 && m == tail + d2;
    assert d1 == m[|tail|..] == d2;
  }

  /** What `request` makes of what `fetch` produced. */
  function Interpret(ex: Exchange): (r: Result<Json, ClientError>)
    ensures ex.NetworkFailure? ==> r == Failure(TransportError)
    ensures ex.Response? && IsOk(ex.status) ==>
      r == if ex.parsed.Some? then Success(ex.parsed.value) else Failure(ParseError)
    ensures ex.Response? && !IsOk(ex.status) ==>
      var shown := JsString(ErrorDetail(ex.text, ex.parsed));
      r == if shown.Some? then Failure(ApiError(ErrorMessage(ex.status, shown.value))) else Failure(DetailTypeError)
  {
    match ex
    case NetworkFailure => Failure(TransportError)
    case Response(status, text, parsed) =>
      if !IsOk(status) then
        var shown := JsString(ErrorDetail(text, parsed));
        if shown.None? then Failure(DetailTypeError)
        else Failure(ApiError(ErrorMessage(status, shown.value)))
      else if parsed.None? then Failure(ParseError)
      else Success(parsed.value)
  }

  /** A 2xx status never yields an API error: the parsed body is returned as it is. */
  lemma OkIsNeverApiError(status: nat, text: string, parsed: Option<Json>)
    requires IsOk(status)
    ensures var r := Interpret(Response(status, text, parsed));
      (r.Success? <==> parsed.Some?) && (r.Success? ==> r.value == parsed.value) &&
      (r.Failure? ==> r.error == ParseError)
  {
  }

  /** A non-2xx status always throws, whatever the body. A string detail (the raw text,
      or a string `message`/`error`) always gives the normalised message, and that message
      names the status; only an object or array detail can make the conversion throw. */
  lemma NonOkAlwaysThrows(status: nat, text: string, parsed: Option<Json>)
    requires !IsOk(status)
    ensures var r := Interpret(Response(status, text, parsed));
      r.Failure? && (r.error.ApiError? || r.error.DetailTypeError?)
    ensures var d := ErrorDetail(text, parsed);
      d.JStr? ==> Interpret(Response(status, text, parsed)) == Failure(ApiError(ErrorMessage(status, d.s)))
    ensures var r := Interpret(Response(status, text, parsed));
      r.error.ApiError? ==> StatusOf(r.error.message) == Some(status)
    ensures var d := ErrorDetail(text, parsed);
      Interpret(Response(status, text, parsed)) == Failure(DetailTypeError) ==> d.JObj? || d.JArr?
  {
    var shown := JsString(ErrorDetail(text, parsed));
    if shown.Some? {
      ErrorMessageNamesStatus(status, shown.value);
    }
  }

  /** An unparseable error body appears verbatim after the status. */
  lemma UnparseableBodyIsVerbatim(status: nat, text: string)
    requires !IsOk(status)
    ensures Interpret(Response(status, text, None)) == Failure(ApiError(ERROR_PREFIX + NatToString(status) + "): " + text))
  {
  }

  /** Decimal forms of the statuses used in the worked cases below. */
  lemma StatusDigits()
    ensures NatToString(429) == "429" && NatToString(503) == "503"
  {
    assert 429 / 10 == 42 && 429 % 10 == 9 && 42 / 10 == 4 && 42 % 10 == 2;
    assert NatToString(42) == "42";
    assert 503 / 10 == 50 && 503 % 10 == 3 && 50 / 10 == 5 && 50 % 10 == 0;
    assert NatToString(50) == "50";
  }

  /** A worked case: status 429 with the structured body
      `{"message":"quota exceeded","code":429}`. */
  lemma StructuredErrorExample(text: string)
    ensures Interpret(Response(429, text, Some(JObj(map["message" := JStr("quota exceeded"), "code" := JNum(429)]))))
         == Failure(ApiError("Wordstat API error (429): quota exceeded"))
  {
    var fields := map["message" := JStr("quota exceeded"), "code" := JNum(429)];
    assert "message" in fields && fields["message"] == JStr("quota exceeded");
    assert ErrorDetail(text, Some(JObj(fields))) == JStr("quota exceeded");
    assert JsString(JStr("quota exceeded")) == Some("quota exceeded");
    StatusDigits();
    assert ErrorMessage(429, "quota exceeded") == "Wordstat API error (429): quota exceeded";
    assert !IsOk(429);
  }

  /** A worked case: status 503 with the raw, unparseable body `rate limited`. */
  lemma RawTextErrorExample()
    ensures Interpret(Response(503, "rate limited", None)) == Failure(ApiError("Wordstat API error (503): rate limited"))
  {
    StatusDigits();
    assert ErrorMessage(503, "rate limited") == "Wordstat API error (503): rate limited";
  }

  /** A `message` object with its own `toString` key makes the message template throw a
      `TypeError` instead of the API error: status 500, body `{"message":{"toString":1}}`. */
  lemma DetailWithOwnToStringThrows(text: string)
    ensures Interpret(Response(500, text, Some(JObj(map["message" := JObj(map["toString" := JNum(1)])]))))
         == Failure(DetailTypeError)
  {
  }

  /** The `getTopRequests` body: `phrase` always; `regions` whenever given, even empty;
      `numPhrases` only when given and non-zero; nothing else. */
  function TopRequestsBody(p: TopRequestsParams): (body: Body)
    ensures body.Keys <= {"phrase", "regions", "numPhrases"}
    ensures "phrase" in body && body["phrase"] == JStr(p.phrase)
    ensures "regions" in body <==> p.regions.Some?
    ensures "regions" in body ==> body["regions"] == JsonNumbers(p.regions.value)
    ensures "numPhrases" in body <==> p.numPhrases.Some? && p.numPhrases.value != 0
    ensures "numPhrases" in body ==> body["numPhrases"] == JNum(p.numPhrases.value)
  {
    map["phrase" := JStr(p.phrase)]
      + SpreadIfTruthy("regions", OptNumbers(p.regions))
      + SpreadIfTruthy("numPhrases", if p.numPhrases.Some? then Some(JNum(p.numPhrases.value)) else None)
  }

  /** The `getDynamics` body: `phrase`, `period` and `fromDate` always; `toDate` only when
      given and non-empty; `regions` and `devices` whenever given; nothing else. */
  function DynamicsBody(p: DynamicsParams): (body: Body)
    ensures body.Keys <= {"phrase", "period", "fromDate", "toDate", "regions", "devices"}
    ensures "phrase" in body && body["phrase"] == JStr(p.phrase)
    ensures "period" in body && body["period"] == JStr(PeriodName(p.period))
    ensures "fromDate" in body && body["fromDate"] == JStr(p.fromDate)
    ensures "toDate" in body <==> p.toDate.Some? && p.toDate.value != ""
    ensures "toDate" in body ==> body["toDate"] == JStr(p.toDate.value)
    ensures "regions" in body <==> p.regions.Some?
    ensures "regions" in body ==> body["regions"] == JsonNumbers(p.regions.value)
    ensures "devices" in body <==> p.devices.Some?
    ensures "devices" in body ==> body["devices"] == JStr(DeviceName(p.devices.value))
  {
    map["phrase" := JStr(p.phrase), "period" := JStr(PeriodName(p.period)), "fromDate" := JStr(p.fromDate)]
      + SpreadIfTruthy("toDate", if p.toDate.Some? then Some(JStr(p.toDate.value)) else None)
      + SpreadIfTruthy("regions", OptNumbers(p.regions))
      + SpreadIfTruthy("devices", if p.devices.Some? then Some(JStr(DeviceName(p.devices.value))) else None)
  }

  /** The `getRegions` body is exactly `{phrase}`. */
  function RegionsBody(p: RegionsParams): (body: Body)
    ensures body.Keys == {"phrase"} && body["phrase"] == JStr(p.phrase)
  {
    map["phrase" := JStr(p.phrase)]
  }

  /** A body built from a phrase alone carries that phrase and no optional key. */
  lemma PhraseOnlyBodies(phrase: string)
    ensures TopRequestsBody(TopRequestsParams(phrase, None, None)) == map["phrase" := JStr(phrase)]
    ensures RegionsBody(RegionsParams(phrase)) == TopRequestsBody(TopRequestsParams(phrase, None, None))
  {
  }

  class WordstatClient {
    /** The bearer credential, set once and never changed. */
    const token: string

    constructor (token: string)
      requires token != ""
      ensures this.token == token
    {
      this.token := token;
    }

    /** The source's constructor: it throws when the token is empty. */
    static method Create(token: string) returns (r: Result<WordstatClient, string>)
      ensures r.Failure? <==> token == ""
      ensures r.Failure? ==> r.error == TOKEN_REQUIRED
      ensures r.Success? ==> fresh(r.value) && r.value.token == token
    {
      if token == "" {
        return Failure(TOKEN_REQUIRED);
      }
      var c := new WordstatClient(token);
      r := Success(c);
    }

    /** `request`: build the POST, send it, and either return the parsed body (2xx) or
        throw the normalised error. `sent` is the request that went to `fetch`. */
    method Request(endpoint: string, body: Option<Body>, send: HttpRequest -> Exchange)
      returns (ghost sent: HttpRequest, r: Result<Json, ClientError>)
      ensures sent == Outbound(token, endpoint, body)
      ensures sent.url == API_BASE_URL + endpoint && sent.httpMethod == "POST" && sent.body == body
      ensures HeaderValue(sent.headers, "Authorization") == Some("Bearer " + token)
      ensures r == Interpret(send(Outbound(token, endpoint, body)))
    {
      var req := Outbound(token, endpoint, body);
      sent := req;
      var response := send(req);
      if response.NetworkFailure? {
        return sent, Failure(TransportError);
      }
      if !IsOk(response.status) {
        var errorText := response.text;
        var errorMessage := ErrorDetail(errorText, response.parsed);
        var shown := JsString(errorMessage);
        if shown.None? {
          return sent, Failure(DetailTypeError);
        }
        return sent, Failure(ApiError(ErrorMessage(response.status, shown.value)));
      }
      if response.parsed.None? {
        return sent, Failure(ParseError);
      }
      r := Success(response.parsed.value);
    }

    method GetTopRequests(params: TopRequestsParams, send: HttpRequest -> Exchange)
      returns (ghost sent: HttpRequest, r: Result<Json, ClientError>)
      ensures sent == Outbound(token, TOP_REQUESTS_PATH, Some(TopRequestsBody(params)))
      ensures r == Interpret(send(Outbound(token, TOP_REQUESTS_PATH, Some(TopRequestsBody(params)))))
    {
      sent, r := Request(TOP_REQUESTS_PATH, Some(TopRequestsBody(params)), send);
    }

    method GetDynamics(params: DynamicsParams, send: HttpRequest -> Exchange)
      returns (ghost sent: HttpRequest, r: Result<Json, ClientError>)
      ensures sent == Outbound(token, DYNAMICS_PATH, Some(DynamicsBody(params)))
      ensures r == Interpret(send(Outbound(token, DYNAMICS_PATH, Some(DynamicsBody(params)))))
    {
      sent, r := Request(DYNAMICS_PATH, Some(DynamicsBody(params)), send);
    }

    method GetRegions(params: RegionsParams, send: HttpRequest -> Exchange)
      returns (ghost sent: HttpRequest, r: Result<Json, ClientError>)
      ensures sent == Outbound(token, REGIONS_PATH, Some(RegionsBody(params)))
      ensures r == Interpret(send(Outbound(token, REGIONS_PATH, Some(RegionsBody(params)))))
    {
      sent, r := Request(REGIONS_PATH, Some(RegionsBody(params)), send);
    }

    /** No body is sent. */
    method GetRegionsTree(send: HttpRequest -> Exchange)
      returns (ghost sent: HttpRequest, r: Result<Json, ClientError>)
      ensures sent == Outbound(token, REGIONS_TREE_PATH, None)
      ensures r == Interpret(send(Outbound(token, REGIONS_TREE_PATH, None)))
    {
      sent, r := Request(REGIONS_TREE_PATH, None, send);
    }

    /** No body is sent. */
    method GetUserInfo(send: HttpRequest -> Exchange)
      returns (ghost sent: HttpRequest, r: Result<Json, ClientError>)
      ensures sent == Outbound(token, USER_INFO_PATH, None)
      ensures r == Interpret(send(Outbound(token, USER_INFO_PATH, None)))
    {
      sent, r := Request(USER_INFO_PATH, None, send);
    }
  }
}
