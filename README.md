# Sendloop MTA PHP client — a Dafny model

The library is a thin client for the Sendloop MTA transactional-email web
API. Most of it drives cURL. It has two pieces of logic worth modelling,
and this project models both:

1. **`Message`** (`src/Message.php`) is a mutable record of seven string
   properties: from name and email, reply-to name and email, subject, text
   and HTML. `setFrom` is the only setter that validates. It rejects a name
   or email that PHP's `empty()` calls empty (`null`, `""`, `"0"`) before
   it assigns anything. The model is the class `SendloopMessage.Message`.
   Every setter has a field-granular `modifies` frame, so it provably
   touches only its own properties.
2. **The decisions of `Mailer`** (`src/Mailer.php`), in module
   `SendloopMailer`:
   - the constructor's null-key check;
   - the reply-to fallback;
   - the nine-field POST body;
   - the `Authorization: Basic` header;
   - the ordered classification of the response: transport error, then
     HTTP 401, then a body that does not decode, then an application
     `HttpCode` of 400 or more, then success.

   The cURL round trip is a parameter of `Mailer.Send`: a function from the
   request (fields and headers) to an `Exchange`. An `Exchange` holds the
   `curl_error` text, the HTTP status, the raw body and what `json_decode`
   made of the body.

Supporting modules:
- `Php` models PHP byte strings as `PhpString`: a `string` whose chars are
  all below 256.
- `Php.Value` is a string that may also be `null`.
- `Php.Empty` is `empty()` on such values.
- `Exceptions` has the four exception classes as `Error`, plus
  `Result`/`Outcome` for calls that throw.
- `Base64` is `base64_encode` as section 4 of RFC 4648 defines it, with a
  validating decoder. It is proved in both directions: decoding an encoding
  gives back the bytes, and every string that decodes is the canonical
  encoding of its bytes. The Authorization header's contract uses this: its
  credential part decodes to exactly `apiKey ++ ":X"`, so different keys
  give different headers.

Two consequences of the code are worth stating:
- A new `Message` has `""` as its from email (src/Message.php:18), and `send`
  never checks it. A message whose sender was never set is sent with empty
  `From` and `ReplyTo` fields.
- `send` returns the whole decoded response object (src/Mailer.php:92), not
  just a message identifier.

PHP's default arguments are kept as Dafny default parameters:
- `setFrom` and `setReplyTo` default both arguments to null;
- the content and subject setters default to `""`;
- the Mailer constructor defaults the key to null, so `new Mailer()` throws;
- `send` defaults the custom args to an empty array, which is sent as `"{}"`.

## Model

| member | source | states |
|---|---|---|
| SendloopMessage.Message.constructor | src/Message.php:13-51 | a new message has all seven properties equal to the empty string |
| SendloopMessage.Message.SetFrom | src/Message.php:59-66 | both arguments default to null; fails with InvalidArgument exactly when the name or email is PHP-empty (null, "" or "0"), and then leaves both from-properties unchanged; otherwise stores both as given; touches no other property |
| SendloopMessage.Message.GetFrom | src/Message.php:72-75 | returns the stored (name, email) pair |
| SendloopMessage.Message.SetReplyTo | src/Message.php:82-86 | both arguments default to null; never fails; stores both arguments verbatim, null and empty values included; touches no other property |
| SendloopMessage.Message.GetReplyTo | src/Message.php:92-95 | returns the stored reply-to (name, email) pair |
| SendloopMessage.Message.SetTextContent | src/Message.php:101-104 | the argument defaults to ""; stores the text; touches no other property |
| SendloopMessage.Message.GetTextContent | src/Message.php:110-113 | returns the stored text |
| SendloopMessage.Message.SetHTMLContent | src/Message.php:119-122 | the argument defaults to ""; stores the HTML; touches no other property |
| SendloopMessage.Message.GetHTMLContent | src/Message.php:128-131 | returns the stored HTML |
| SendloopMessage.Message.SetSubject | src/Message.php:137-140 | the argument defaults to ""; stores the subject; touches no other property |
| SendloopMessage.Message.GetSubject | src/Message.php:146-149 | returns the stored subject |
| SendloopMessage.SettersLastWriteWins | src/Message.php:82-140 | from the setters' contracts alone: calling a setter twice leaves the second value, and the settings of other properties and the sender survive |
| SendloopMessage.DefaultArguments | src/Message.php:59-140 | called without arguments, setFrom fails with InvalidArgument and keeps the sender, setReplyTo resets both reply-to properties to null, and the content and subject setters reset theirs to "" |
| Php.Empty | src/Message.php:61 | PHP emptiness on a nullable string: null, "" and "0" are empty, every other string (any of two or more characters, any other single character) is not |
| SendloopMessage.SetFromTwice | src/Message.php:59-66 | a second accepted setFrom replaces the sender; a second rejected one keeps the first; the other five properties are untouched |
| SendloopMailer.CheckApiKey | src/Mailer.php:29-34 | a null key fails with InvalidAPIKey; any other key, whether empty or not, is accepted unchanged |
| SendloopMailer.Mailer.Create | src/Mailer.php:27-35 | the key defaults to null; constructing with a null key fails with InvalidAPIKey; otherwise a fresh Mailer holds the key unchanged |
| SendloopMailer.CreateWithoutKey | src/Mailer.php:27-31 | constructing a Mailer with no key at all fails with InvalidAPIKey |
| SendloopMailer.Mailer.constructor | src/Mailer.php:34 | the stored key is the given one |
| SendloopMailer.ResolveReplyTo | src/Mailer.php:49-55 | when the reply-to email is PHP-empty both reply-to name and email become the from pair, even if a reply-to name was set; otherwise both are kept as set |
| SendloopMailer.ClearedReplyToFallsBack | src/Mailer.php:49-55 | after setReplyTo() with no arguments, the reply-to pair sent is the from pair |
| SendloopMailer.ReplyToNeverEmpty | src/Mailer.php:52-55 | once the from email is non-empty, the reply-to email sent is non-empty |
| SendloopMailer.Payload | src/Mailer.php:57-67 | the body has exactly the nine fields From, FromName, To, ReplyTo, ReplyToName, Subject, TextBody, HTMLBody, CustomArgs, filled from the from email, from name, recipient, resolved reply-to email and name, subject, text, HTML and encoded custom args |
| SendloopMailer.KeysDistinct | src/Mailer.php:58-66 | the nine wire keys are pairwise distinct |
| Base64.Encode | src/Mailer.php:102 | the encoding of n bytes has 4 * ceil(n / 3) characters, all from the RFC 4648 alphabet or '=', with '=' only in the last two places |
| Base64.DecodeEncode | src/Mailer.php:102 | decoding the encoding of any byte string gives that byte string back |
| Base64.EncodeDecode | src/Mailer.php:102 | every string that decodes is the encoding of the bytes it decodes to |
| Base64.EncodeInjective | src/Mailer.php:102 | different byte strings have different encodings |
| SendloopMailer.AuthorizationHeader | src/Mailer.php:99-104 | the header line starts "Authorization: Basic " and the rest decodes (base64) to exactly apiKey ++ ":X" |
| SendloopMailer.AuthorizationHeaderInjective | src/Mailer.php:102 | different API keys give different Authorization headers |
| SendloopMailer.Mailer.RequestHeaders | src/Mailer.php:99-104 | the request headers are the single Authorization line for the stored key |
| SendloopMailer.IsApplicationError | src/Mailer.php:87-88 | floor(HttpCode / 100) >= 4 holds exactly when HttpCode >= 400 |
| SendloopMailer.HttpCodeOf | src/Mailer.php:87 | a response without HttpCode reads as code 0, which is never an error |
| SendloopMailer.StatusText | src/Mailer.php:89 | the error message is the response's Status when set, else "" |
| SendloopMailer.TransportFailed | src/Mailer.php:73 | the cURL error text signals a failure exactly when PHP treats it as true: it is neither "" nor "0" |
| SendloopMailer.Classify | src/Mailer.php:72-92 | a transport error (a cURL error text that PHP treats as true, so neither "" nor "0") yields HTTPException with the failure prefix plus that text, and only then; else HTTP 401 yields InvalidAPIKey, and only then; else an undecodable body yields Exception with the decode prefix plus the raw body; else an application error code yields Exception with the Status text; the decoded response is returned exactly when all four checks pass; InvalidArgument never arises |
| SendloopMailer.TransportErrorDecides | src/Mailer.php:73-75 | a transport error decides the result whatever the status and body |
| SendloopMailer.UnauthorizedDecides | src/Mailer.php:78-80 | without a transport error, HTTP 401 yields InvalidAPIKey whatever the body |
| SendloopMailer.Mailer.Send | src/Mailer.php:45-93 | the custom args default to the encoding "{}" of an empty array; the result is the classification of what the transport returns for the request made of the message's nine resolved fields and the Authorization header of the stored key |

## Left out

- `initCurl` and the `$curl` handle (src/Mailer.php:20, src/Mailer.php:109-120): the connection and timeout settings, the disabled certificate check, the user agent and the URL. They are transport configuration with nothing to state about them.
- `curl_exec`, `curl_error`, `curl_getinfo` (src/Mailer.php:72-77): the network round trip is the `exchange` parameter of `Mailer.Send`. `curl_exec` returning `false` with no error text is not distinguished from a received body.
- `json_encode($customArgs, JSON_FORCE_OBJECT)` (src/Mailer.php:66): a library serialiser. `Send` takes the custom args already encoded, as an opaque string, and its failure case is not modelled.
- `json_decode` (src/Mailer.php:82): a library parser. Its result is an input (`Exchange.decoded`), not computed from the body. A body that decodes to JSON `null` is the same as one that does not decode, as in PHP.
- `http_build_query` (src/Mailer.php:57): the body is modelled as a field-to-value map, not as the form-encoded string. PHP's encoder drops entries whose value is null, so a null field is absent from the wire but present as `Null` in the map.
- `Response.fields`: the properties of the decoded response other than `HttpCode` and `Status` are kept by name as null or a string. Nested objects, arrays, numbers and booleans are not modelled, and nothing ties `fields` to stay clear of the names `HttpCode` and `Status`.
- PHP floating point in `floor($responseDecoded->HttpCode / 100)`: `HttpCode` is an `int` (or absent), and Dafny's integer division by 100 is floor division. HttpCode values that are floats or numeric strings are not modelled.
- PHP's loose typing: arguments and properties are null or strings. `empty()` on arrays, `0`, `false` and other non-strings, and string interpolation of a non-string API key, are not modelled.
- The static `Mailer.Create` stands for PHP's throwing constructor. A Dafny constructor cannot fail.
