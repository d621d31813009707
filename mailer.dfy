/** The client of the Sendloop MTA web API (class Sendloop\MTA\Mailer):
    the decisions it takes around one HTTP round trip. The round trip
    itself is a parameter of the model. */
module SendloopMailer {
  import opened Php
  import opened Exceptions
  import Base64
  import opened SendloopMessage

  const TransportFailurePrefix: string := "API call to Sendloop MTA failed: "
  const DecodeFailurePrefix: string := "We couldn't decode the JSON response from Sendloop API: "
  const AuthorizationPrefix: string := "Authorization: Basic "
  /** The password part of the Basic credentials; the API key is the user. */
  const PasswordSuffix: PhpString := ":X"

  /** The fields of the POST body of `send`. */
  datatype Field = From | FromName | To | ReplyTo | ReplyToName | Subject | TextBody | HTMLBody | CustomArgs

  const AllFields: set<Field> := {From, FromName, To, ReplyTo, ReplyToName, Subject, TextBody, HTMLBody, CustomArgs}

  /** The key under which a field is posted. */
  function Key(f: Field): (k: string)
  {
    match f
    case From => "From"
    case FromName => "FromName"
    case To => "To"
    case ReplyTo => "ReplyTo"
    case ReplyToName => "ReplyToName"
    case Subject => "Subject"
    case TextBody => "TextBody"
    case HTMLBody => "HTMLBody"
    case CustomArgs => "CustomArgs"
  }

  /** The nine keys are distinct, so no field of the body overwrites another. */
  lemma KeysDistinct(f: Field, g: Field)
    requires Key(f) == Key(g)
    ensures f == g
  {
  }

  /** What `json_decode` made of a response body that decoded: the
      application-level `HttpCode` and `Status` (absent or null
      properties are None and Null), and the remaining properties, by
      name, as opaque values; `fields` is not meant to hold HttpCode or
      Status again. */
  datatype Response = Response(httpCode: Option<int>, status: Value, fields: map<string, Value>)

  /** What one cURL round trip yields: `curl_error` ("" when none), the
      HTTP status of `curl_getinfo`, the raw body, and `json_decode` of
      the body (None where PHP gets null). */
  datatype Exchange = Exchange(curlError: PhpString, httpStatus: int, body: PhpString, decoded: Option<Response>)

  /** The POST fields and the header lines handed to cURL. */
  datatype Request = Request(fields: map<Field, Value>, headers: seq<string>)

  /** The null-key check of the constructor: any other key is kept as given. */
  function CheckApiKey(apiKey: Value): (r: Result<PhpString>)
    ensures r.Err? <==> apiKey == Null
    ensures r.Err? ==> r.error == InvalidAPIKey
    ensures apiKey.Str? ==> r == Ok(apiKey.s)
  {
    match apiKey
    case Null => Err(InvalidAPIKey)
    case Str(s) => Ok(s)
  }

  /** The reply-to pair actually sent: the from pair when the reply-to
      email is empty (whatever reply-to name was set), else the reply-to
      pair as set. */
  function ResolveReplyTo(fromName: Value, fromEmail: Value, replyToName: Value, replyToEmail: Value): (r: (Value, Value))
    ensures Empty(replyToEmail) ==> r == (fromName, fromEmail)
    ensures !Empty(replyToEmail) ==> r == (replyToName, replyToEmail)
    ensures r.1 == fromEmail || r.1 == replyToEmail
  {
    if Empty(replyToEmail) then (fromName, fromEmail) else (replyToName, replyToEmail)
  }

  /** A reply-to email is always sent once a sender email is set. */
  lemma ReplyToNeverEmpty(fromName: Value, fromEmail: Value, replyToName: Value, replyToEmail: Value)
    requires !Empty(fromEmail)
    ensures !Empty(ResolveReplyTo(fromName, fromEmail, replyToName, replyToEmail).1)
  {
  }

  /** The nine POST fields of `send`. */
  function Payload(to: Value, fromName: Value, fromEmail: Value, replyTo: (Value, Value),
                   subject: Value, text: Value, html: Value, customArgs: PhpString): (p: map<Field, Value>)
    ensures p.Keys == AllFields
    ensures p[From] == fromEmail && p[FromName] == fromName && p[To] == to
    ensures p[ReplyTo] == replyTo.1 && p[ReplyToName] == replyTo.0
    ensures p[Subject] == subject && p[TextBody] == text && p[HTMLBody] == html
    ensures p[CustomArgs] == Str(customArgs)
  {
    map[From := fromEmail, FromName := fromName, To := to,
        ReplyTo := replyTo.1, ReplyToName := replyTo.0,
        Subject := subject, TextBody := text, HTMLBody := html,
        CustomArgs := Str(customArgs)]
  }

  /** The Authorization header line: HTTP Basic with the API key as user
      and "X" as password. Its credential part decodes to exactly that. */
  function AuthorizationHeader(apiKey: PhpString): (h: string)
    ensures |AuthorizationPrefix| <= |h| && h[..|AuthorizationPrefix|] == AuthorizationPrefix
    ensures Base64.Decode(h[|AuthorizationPrefix|..]) == Some(apiKey + PasswordSuffix)
  {
    var credentials := Base64.Encode(apiKey + PasswordSuffix);
    Base64.DecodeEncode(apiKey + PasswordSuffix);
    var h := AuthorizationPrefix + credentials;
    assert h[|AuthorizationPrefix|..] == credentials;
    h
  }

  /** Different API keys give different Authorization headers. */
  lemma AuthorizationHeaderInjective(k1: PhpString, k2: PhpString)
    requires k1 != k2
    ensures AuthorizationHeader(k1) != AuthorizationHeader(k2)
  {
    var c1, c2 := k1 + PasswordSuffix, k2 + PasswordSuffix;
    if |k1| != |k2| {
      assert |c1| != |c2|;
    } else {
      var i :| 0 <= i < |k1| && k1[i] != k2[i];
      assert c1[i] != c2[i];
    }
  }

  /** The application-level error test floor(HttpCode / 100) >= 4. For a
      divisor of 100, Dafny's Euclidean division is floor division. */
  function IsApplicationError(httpCode: int): (b: bool)
    ensures b <==> httpCode >= 400
  {
    httpCode / 100 >= 4
  }

  /** PHP reads a missing HttpCode as null, which divides as 0. */
  function HttpCodeOf(resp: Response): (c: int)
    ensures resp.httpCode.Some? ==> c == resp.httpCode.value
    ensures resp.httpCode.None? ==> !IsApplicationError(c)
  {
    match resp.httpCode
    case Some(c) => c
    case None => 0
  }

  /** The message of an application error: the response's Status when it
      is set and not null, else the empty string. */
  function StatusText(resp: Response): (s: string)
    ensures resp.status.Str? ==> s == resp.status.s
    ensures resp.status.Null? ==> s == ""
  {
    match resp.status
    case Str(s) => s
    case Null => ""
  }

  /** cURL reported a failure: the error text is true for PHP, which
      rules out exactly the empty string and "0". */
  predicate TransportFailed(x: Exchange): (b: bool)
    ensures b <==> x.curlError != "" && x.curlError != "0"
    ensures |x.curlError| >= 2 ==> b
  {
    !Empty(Str(x.curlError))
  }

  /** The response ladder of `send`: transport error, then HTTP 401, then a
      body that does not decode, then an application error code; only a
      response past all four checks is returned. */
  function Classify(x: Exchange): (r: Result<Response>)
    ensures (r.Err? && r.error.HTTPException?) <==> TransportFailed(x)
    ensures TransportFailed(x) ==> r == Err(HTTPException(TransportFailurePrefix + x.curlError))
    ensures r == Err(InvalidAPIKey) <==> !TransportFailed(x) && x.httpStatus == 401
    ensures (r.Err? && r.error.Exception?) <==>
      !TransportFailed(x) && x.httpStatus != 401 &&
      (x.decoded.None? || IsApplicationError(HttpCodeOf(x.decoded.value)))
    ensures !TransportFailed(x) && x.httpStatus != 401 && x.decoded.None? ==>
      r == Err(Exception(DecodeFailurePrefix + x.body))
    ensures !TransportFailed(x) && x.httpStatus != 401 && x.decoded.Some? && IsApplicationError(HttpCodeOf(x.decoded.value)) ==>
      r == Err(Exception(StatusText(x.decoded.value)))
    ensures r.Ok? <==>
      !TransportFailed(x) && x.httpStatus != 401 && x.decoded.Some? && !IsApplicationError(HttpCodeOf(x.decoded.value))
    ensures r.Ok? ==> r.value == x.decoded.value
    ensures !(r.Err? && r.error.InvalidArgument?)
  {
    if TransportFailed(x) then Err(HTTPException(TransportFailurePrefix + x.curlError))
    else if x.httpStatus == 401 then Err(InvalidAPIKey)
    else if x.decoded.None? then Err(Exception(DecodeFailurePrefix + x.body))
    else if IsApplicationError(HttpCodeOf(x.decoded.value)) then Err(Exception(StatusText(x.decoded.value)))
    else Ok(x.decoded.value)
  }

  /** A transport error decides the result whatever the status and body. */
  lemma TransportErrorDecides(x: Exchange, y: Exchange)
    requires TransportFailed(x) && y.curlError == x.curlError
    ensures Classify(x) == Classify(y)
  {
  }

  /** Without a transport error, HTTP 401 decides whatever the body. */
  lemma UnauthorizedDecides(x: Exchange, y: Exchange)
    requires !TransportFailed(x) && !TransportFailed(y) && x.httpStatus == 401 && y.httpStatus == 401
    ensures Classify(x) == Classify(y) == Err(InvalidAPIKey)
  {
  }

  class Mailer {
    const apiKey: PhpString

    constructor (apiKey: PhpString)
      ensures this.apiKey == apiKey
    {
      this.apiKey := apiKey;
    }

    /** Constructing a Mailer, which throws InvalidAPIKey for a null key:
        also when no key is given at all. */
    static method Create(apiKey: Value := Null) returns (r: Result<Mailer>)
      ensures r.Err? <==> apiKey == Null
      ensures r.Err? ==> r.error == InvalidAPIKey
      ensures r.Ok? ==> fresh(r.value) && r.value.apiKey == apiKey.s
    {
      var checked := CheckApiKey(apiKey);
      match checked
      case Err(e) => r := Err(e);
      case Ok(key) =>
        var m := new Mailer(key);
        r := Ok(m);
    }

    /** The header lines of every request: just the Authorization line. */
    function RequestHeaders(): (h: seq<string>)
      ensures h == [AuthorizationHeader(apiKey)]
    {
      [AuthorizationHeader(apiKey)]
    }

    /** `send`: reads the message, posts the nine fields with the
        Authorization header through `exchange` (the cURL round trip) and
        classifies what comes back. Without custom args the CustomArgs
        field is the encoding of an empty object, "{}". */
    method Send(exchange: Request -> Exchange, to: Value, message: Message, customArgs: PhpString := "{}")
      returns (r: Result<Response>)
      ensures var replyTo := ResolveReplyTo(message.fromName, message.fromEmail, message.replyToName, message.replyToEmail);
        var fields := Payload(to, message.fromName, message.fromEmail, replyTo,
                              message.subject, message.text, message.html, customArgs);
        r == Classify(exchange(Request(fields, RequestHeaders())))
    {
      var fromName, fromEmail := message.GetFrom();
      var replyToName, replyToEmail := message.GetReplyTo();
      var replyTo := ResolveReplyTo(fromName, fromEmail, replyToName, replyToEmail);
      var subject := message.GetSubject();
      var text := message.GetTextContent();
      var html := message.GetHTMLContent();
      var fields := Payload(to, fromName, fromEmail, replyTo, subject, text, html, customArgs);
      var response := exchange(Request(fields, RequestHeaders()));
      r := Classify(response);
    }
  }

  /** `new Mailer()` without a key fails. */
  method CreateWithoutKey() returns (r: Result<Mailer>)
    ensures r == Err(InvalidAPIKey)
  {
    r := Mailer.Create();
  }

  /** Clearing the reply-to pair with setReplyTo() makes send fall back to
      the sender. */
  method ClearedReplyToFallsBack(m: Message)
    modifies m
    ensures m.fromName == old(m.fromName) && m.fromEmail == old(m.fromEmail)
    ensures ResolveReplyTo(m.fromName, m.fromEmail, m.replyToName, m.replyToEmail) == (m.fromName, m.fromEmail)
  {
    m.SetReplyTo();
  }
}
