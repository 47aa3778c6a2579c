# Outbound PHP SDK — a Dafny model of the client core

The Outbound SDK is one static façade class, `Outbound`. It holds an API key
and two cURL timeouts, which the public `init` stores and the test-only
`reset` clears (the key only). Its four operations, `identify`, `track`,
`register_token` and `disable_token`, each do the same work in order:

1. It checks that `init` stored a truthy key.
2. It validates its arguments in a fixed order.
3. It shapes a payload array.
4. It picks one of six API call codes and posts the payload as JSON to the
   matching endpoint under `https://api.outbound.io/v2`.
5. It turns the HTTP outcome into success or an exception.

This project models `init`, `reset` and every step of the four operations
except the HTTP exchange itself.

- `text.dfy` (module `Text`) holds PHP's default `trim` and the decimal
  rendering of an integer inside a string concatenation. The decimal
  rendering comes with its round trip.
- `php.dfy` (module `Php`) holds the part of PHP's value model the client
  uses:
  - dynamically typed values;
  - `empty()`, which is also PHP's truthiness;
  - `gettype`;
  - ordered arrays with key lookup, reading an undefined index (null), and
    `$a[$k] = $v`.
- `outbound.dfy` (module `Outbound`) holds two parts:
  - the pure parts of the class: guard, user-id validation, `_build_user` as
    `array_intersect_key` followed by `array_filter`, the token payload,
    `_build_url`, the header lines, and the translation of the cURL outcome;
  - `class Client`, whose fields are the three static fields. `init` and
    `reset` update these fields, and the four operations are methods over
    them.

  Each operation returns a `Response`. The response is either
  `NotSent(error)`, meaning the call threw before any request, or
  `Sent(request, status)`, meaning exactly one request went out and then the
  call either succeeded or threw.
- `scenarios.dfy` (module `OutboundScenarios`) holds three kinds of checks,
  each on a fresh client:
  - the library's PHPUnit cases;
  - end-to-end examples of a whole call, request and outcome;
  - a few payload-shaping examples.

The model has four inputs in place of I/O:

- the transport outcome, which is `TransportFailed(errno, reason)` or
  `Received(body, decoded)`, and which every operation takes as a parameter;
- `decoded`, which is what `json_decode` makes of an error body;
- the clock reading `time()`, which becomes the parameter `now` of `track`;
- the payload array itself, which stands in for the JSON text, since
  `json_encode` is not modelled.

`_build_user`'s emptiness filter also applies to the `user_id` entry it has
just set. So for an id of `0`, `""`, `"0"` or a float zero, `identify` sends no
`user_id` at all. `track` reads `$user['user_id']` from that result, and an
undefined index reads as null, so `track(0, …)` sends `user_id => null`. See
`Outbound.ShapeUserId`, `Outbound.TrackUserId`,
`OutboundScenarios.FalsyIdIdentified` and `OutboundScenarios.FalsyIdTracked`.

Some non-empty response bodies do not decode at all, and some decode to a
value with no `error` entry. For those, the PHP code reads offsets of null,
which give null, and throws an `OutboundApiException` with an empty message
and code 0. Other bodies that are not an `{error: {Message, Code}}` object,
such as `{"error":"bad key"}` or a JSON string, make line 260 read a string
offset with a non-numeric key. What happens then depends on the PHP version.
For every body that is not an error object, the model gives a separate
`Protocol` error that carries the trimmed body instead (see "Left out").

## Model

| member | source | states |
|---|---|---|
| Text.TrimLeft | lib/outbound.php:255 | the result is the suffix of the input that starts at the first non-trim character; everything stripped is a trim character (space, tab, LF, CR, NUL, VT) |
| Text.TrimRight | lib/outbound.php:255 | the result is the prefix of the input that ends at the last non-trim character; everything stripped is a trim character |
| Text.TrimEmptyIff | lib/outbound.php:255-256 | `trim($response) == ''` holds exactly when every character of the body is a trim character |
| Text.NatToDecimal | lib/outbound.php:218 | the rendering of a natural number is a non-empty digit string without a leading zero |
| Text.IntToDecimal | lib/outbound.php:251 | the rendering of an integer starts with `-` exactly when the integer is negative |
| Text.NatToDecimalRoundTrip | lib/outbound.php:218 | reading back the digits of a rendered natural number gives the number |
| Text.IntToDecimalRoundTrip | lib/outbound.php:251 | reading back a rendered integer, sign included, gives the integer |
| Text.IntToDecimalInjective | lib/outbound.php:218 | distinct integers render as distinct text |
| Text.IntToDecimalChars | lib/outbound.php:218 | a rendered integer holds only digits and a leading minus sign, so it cannot run into the `)` or ` - ` that follows it in a message |
| Text.Trim | lib/outbound.php:255 | `trim` with the default character list: `TrimLeft` then `TrimRight`; the result is empty or starts and ends with a non-trim character; `TrimEmptyIff` says when it is empty |
| Php.FloatIsZero | lib/outbound.php:199 | `empty()` of a float: specified by `FloatIsZeroIff` |
| Php.FloatIsZeroIff | lib/outbound.php:199 | a float is zero exactly when it is `0.0` or `-0.0` |
| Php.IsEmpty | lib/outbound.php:198-200 | PHP `empty()`, which is also the truthiness of `if ($properties)`, `if (!$timestamp)`, `$user_info ? … : …` and `!self::$api_key` (lines 80, 83, 146, 180); specified by `IsEmptyCases` |
| Php.IsEmptyCases | lib/outbound.php:198-200 | the empty values are exactly null, false, integer 0, the two float zeros, `""`, `"0"` and the empty array; objects and callables never are |
| Php.TypeName | lib/outbound.php:163 | `gettype`, with `function` for a callable, as in the messages at lines 73, 108 and 163; specified by `TypeNameClassifies` |
| Php.TypeNameClassifies | lib/outbound.php:163 | two values have the same type name exactly when they are of the same kind |
| Php.Lookup | lib/outbound.php:78 | a lookup finds a value exactly when the key is present; the value found is stored under that key; in an array with distinct keys it is the only value stored there |
| Php.ReadIndex | lib/outbound.php:78 | `$a[$k]` gives the stored value for a present key and null for an absent one |
| Php.Assign | lib/outbound.php:196 | `$a[$k] = $v` keeps the size when the key is present, and otherwise appends exactly one entry at the end |
| Php.LookupAssign | lib/outbound.php:81-86 | after `$a[$k] = $v`, key `k` reads `v` and every other key reads as before |
| Outbound.UserIdError | lib/outbound.php:163 | the user-id Data error; `DataErrorsInjective` shows its message determines the type name |
| Outbound.EventError | lib/outbound.php:73 | the event Data error; its message determines the type name (`DataErrorsInjective`) |
| Outbound.TokenError | lib/outbound.php:108 | the token Data error; its message determines the type name (`DataErrorsInjective`) |
| Outbound.PlatformError | lib/outbound.php:104 | the platform Data error; its message determines the platform (`DataErrorsInjective`) |
| Outbound.UnsupportedCallError | lib/outbound.php:218 | the plain exception for an unroutable call code; `UnsupportedCallErrorInjective` shows its message determines the code |
| Outbound.ConnectionError | lib/outbound.php:251 | the Connection error for a cURL failure; `ConnectionErrorInjective` shows its message determines the error number and text |
| Outbound.DataErrorsInjective | lib/outbound.php:73 | equal user-id, event or token messages mean equal type names, and back; equal platform messages mean equal platforms |
| Outbound.UnsupportedCallErrorInjective | lib/outbound.php:218 | two "Unsupported API call" errors are equal exactly when their codes are |
| Outbound.ConnectionErrorInjective | lib/outbound.php:251 | two connection errors are equal exactly when their cURL error numbers and texts are |
| Outbound.EnsureInit | lib/outbound.php:145-149 | the guard passes exactly when a key is stored and it is neither `""` nor `"0"`; otherwise it fails with the init error `InitError`, a plain exception with the message of line 147 |
| Outbound.ValidateUserId | lib/outbound.php:159-164 | rejects exactly null, booleans, arrays, objects and callables, and accepts strings, integers and floats; a rejection carries the "User ID must be string or integer" Data error for that value |
| Outbound.UserIdRejectionNamesType | lib/outbound.php:163 | a rejected id is exactly one whose type name is `NULL`, `boolean`, `array`, `object` or `function`; the error is a Data error |
| Outbound.IntersectKeys | lib/outbound.php:181-195 | `array_intersect_key` with the ten-key whitelist; specified by `IntersectKeysMembers`, `IntersectKeysAppend` and `IntersectKeysOfFields` |
| Outbound.FilterNonEmpty | lib/outbound.php:198-200 | `array_filter` with `!empty($v)`; specified by `FilterNonEmptyMembers`, `FilterNonEmptyAppend` and `FilterNonEmptyIdempotent` |
| Outbound.Given | lib/outbound.php:177 | an omitted `$user_info` (null) reads as the empty array |
| Outbound.ShapeUser | lib/outbound.php:180-200 | the shaping half of `_build_user`; specified by `ShapeUserFields`, `ShapeUserId` and `ShapeUserFixedPoint` |
| Outbound.IntersectKeysMembers | lib/outbound.php:181-195 | `array_intersect_key` with the whitelist keeps exactly the entries whose key is one of the ten user fields, and keys stay distinct |
| Outbound.FilterNonEmptyMembers | lib/outbound.php:198-200 | `array_filter` with `!empty($v)` keeps exactly the entries whose value is not empty, and keys stay distinct |
| Outbound.AssignUserId | lib/outbound.php:196 | setting `user_id` on an array of whitelisted fields appends it at the end, because `user_id` is not a whitelisted key |
| Outbound.BuildUser | lib/outbound.php:177-201 | fails exactly when the id is invalid, with the id error; otherwise gives the shaped payload, which is described by `ShapeUserFields` and `ShapeUserId` |
| Outbound.ShapeUserFields | lib/outbound.php:180-200 | every output key is a whitelisted field or `user_id`; no output value is empty; every other output entry comes unchanged from the input; every whitelisted input entry with a non-empty value is kept; distinct input keys stay distinct |
| Outbound.ShapeUserId | lib/outbound.php:196-200 | every `user_id` output value is the argument, never a value from the user info; `user_id` is present exactly when the id is not empty |
| Outbound.FilterNonEmptyAppend | lib/outbound.php:198-200 | the filter distributes over concatenation |
| Outbound.FilterNonEmptyIdempotent | lib/outbound.php:198-200 | filtering an already filtered array changes nothing |
| Outbound.IntersectKeysAppend | lib/outbound.php:181-195 | the whitelist distributes over concatenation |
| Outbound.IntersectKeysOfFields | lib/outbound.php:181-195 | an array whose keys are all whitelisted passes the whitelist unchanged |
| Outbound.ShapeUserFixedPoint | lib/outbound.php:180-200 | shaping an already shaped payload again, with the same id, gives it back |
| Outbound.BuildUserFixedPoint | lib/outbound.php:177-201 | feeding `_build_user`'s result back in as the user info, with the same valid id, gives the same result |
| Outbound.BuildUrl | lib/outbound.php:203-221 | succeeds exactly for the six call codes 1..6; any other code gives the "Unsupported API call (<code>) given." error |
| Outbound.BuildUrlUnderRoot | lib/outbound.php:204 | every endpoint is `URL_ROOT` followed by a non-empty suffix |
| Outbound.BuildUrlInjective | lib/outbound.php:205-216 | distinct call codes reach distinct URLs |
| Outbound.Headers | lib/outbound.php:234-238 | three header lines are sent |
| Outbound.HeadersCarryKey | lib/outbound.php:234-238 | the lines are, in order, the JSON content type, `X-Outbound-Key: ` followed by the key (so the key can be read back, and different keys give different headers), and `X-Outbound-Client: PHP/2.0.0` |
| Outbound.Translate | lib/outbound.php:246-262 | success exactly when a body arrived and trims to nothing; a cURL failure gives the "Unknown cURL error: <errno> - <reason>" Connection error; a non-blank body that decodes gives an Api error with the server's Message and Code; a non-blank body that does not decode gives a Protocol error |
| Outbound.TokenData | lib/outbound.php:100-114 | the checks of `register_token` and `disable_token` come in order: user id first, then platform (`apns` or `gcm`), then token (a string), each with its own Data error; the call succeeds exactly when all three pass |
| Outbound.TokenDataFields | lib/outbound.php:111-114 | the token payload's keys are exactly `token` then `user_id`, holding the token and the id as given |
| Outbound.HasProperties | lib/outbound.php:80 | `if ($properties)`: properties were given and are non-empty; used by `EventPayloadKeys` and `EventPayloadFields` |
| Outbound.EventPayload | lib/outbound.php:76-87 | the array `track` sends; specified by `EventPayloadKeys` and `EventPayloadFields`, and tied to `track`'s assignments by `TrackAssigns` |
| Outbound.TrackUserId | lib/outbound.php:76-79 | `track`'s `user_id` is the id, or null when the emptiness filter dropped it |
| Outbound.EventPayloadKeys | lib/outbound.php:76-87 | the event payload's keys are `event`, `user_id`, then `properties` only when non-empty properties were given, then `timestamp`, each key once |
| Outbound.EventPayloadFields | lib/outbound.php:76-87 | every event payload field reads back as given; `properties` is absent when no non-empty properties were given |
| Outbound.TrackAssigns | lib/outbound.php:80-87 | `track`'s conditional assignments, starting from `event` and `user_id`, build exactly the event payload |
| Outbound.Client.constructor | lib/outbound.php:26-28 | before `init` all three static fields are null and the guard fails |
| Outbound.Client.Init | lib/outbound.php:30-34 | stores the key and both timeouts, which default to 5 and 30; afterwards the guard passes exactly when the key is neither `""` nor `"0"` |
| Outbound.Client.Reset | lib/outbound.php:40-42 | clears only the key, so the guard fails afterwards |
| Outbound.Client.Execute | lib/outbound.php:230-263 | an unsupported call code throws before any request; otherwise one request goes to the routed URL, with its status from `Translate` |
| Outbound.Client.Identify | lib/outbound.php:54-58 | the guard comes first, then id validation, each throwing before any request; otherwise the shaped user payload is posted to `/identify` |
| Outbound.Client.Track | lib/outbound.php:68-89 | the guard, then the id, then the event (a string) are checked, each with its own error and no request; otherwise the event payload is posted to `/track`, with the timestamp equal to `now` when the caller's value is empty and to that value otherwise |
| Outbound.Client.RegisterToken | lib/outbound.php:99-116 | the guard, then the `TokenData` checks; otherwise `{token, user_id}` is posted to `/apns/register` when the platform is `apns` and to `/gcm/register` otherwise |
| Outbound.Client.DisableToken | lib/outbound.php:126-143 | the same checks; the payload is posted to `/apns/disable` or `/gcm/disable` |
| OutboundScenarios.ConfigurationCarried | lib/outbound.php:30-34 | after `init(key, connect, total)`, every request `identify`, `track`, `register_token` or `disable_token` makes has the headers of that key and those two timeouts (lines 234-240); with the key `""` or `"0"` each of them throws the init error and makes none |
| OutboundScenarios.InitEnforcement | tests/OutboundTest.php:11-14 | after `reset`, `identify(1)` throws the init error and sends nothing |
| OutboundScenarios.FalsyKeyGuard | lib/outbound.php:145-149 | with the key `"0"`, `track` throws the init error before checking its invalid id and event |
| OutboundScenarios.UserIdForIdentify | tests/OutboundTest.php:19-21 | `identify(array('user_id'))` throws the Data error naming `array` |
| OutboundScenarios.UserIdForTrack | tests/OutboundTest.php:26-28 | `track(array('user_id'), 'event')` throws the user-id Data error |
| OutboundScenarios.EventNameForTrack | tests/OutboundTest.php:33-35 | `track('user_id', 9)` throws the event Data error naming `integer` |
| OutboundScenarios.PlatformForRegister | tests/OutboundTest.php:40-42 | `register_token('platform', …)` throws "Invalid platform (platform)." |
| OutboundScenarios.UserIdForRegister | tests/OutboundTest.php:47-49 | `register_token(APNS, array('user_id'), 'token')` throws the user-id Data error |
| OutboundScenarios.TokenForRegister | tests/OutboundTest.php:54-56 | `register_token(APNS, 'user_id', 9)` throws the token Data error naming `integer` |
| OutboundScenarios.SignupTracked | lib/outbound.php:68-89 | `track(42, "signup", {plan: "pro"})` posts exactly `{event, user_id: 42, properties, timestamp: now}` to `https://api.outbound.io/v2/track` with the key's headers and timeouts 5 and 30; an empty body is success |
| OutboundScenarios.SignupRejected | lib/outbound.php:255-260 | the same call, `track(42, "signup", {plan: "pro"})`, answered by `{"error":{"Message":"bad key","Code":401}}`: the same URL and payload go out, and the call ends with an Api error "bad key", code 401 |
| OutboundScenarios.ApnsRegistration | lib/outbound.php:99-116 | `register_token("apns", "u1", "tok123")` posts exactly `{token: "tok123", user_id: "u1"}` to `.../apns/register`; a body of only whitespace is success |
| OutboundScenarios.EmptyFieldsDropped | lib/outbound.php:198-200 | `{first_name: "", last_name: "Smith", attributes: {}}` shapes to `{last_name: "Smith", user_id}` |
| OutboundScenarios.UnknownKeysDropped | lib/outbound.php:181-195 | `{first_name: "A", nickname: "Z"}` shapes to `{first_name: "A", user_id}` |
| OutboundScenarios.ShapeEmptyId | lib/outbound.php:196-200 | with no user info, an empty id shapes to an empty payload |
| OutboundScenarios.FalsyIdIdentified | lib/outbound.php:196-200 | `identify(0)` posts an empty payload |
| OutboundScenarios.FalsyIdTracked | lib/outbound.php:76-79 | `track(0, "e")` posts `user_id` as null |

## Left out

- cURL transport (`curl_init`, `curl_setopt`, `curl_exec`, `curl_close`) is network I/O. Its outcome is an input, and the timeouts are only carried in the request.
- `json_encode` and `json_decode` are library calls. The payload array stands for the JSON text; the decoded error object is an input.
- Translate: does not reproduce what PHP does with a non-empty body that is not an `{error: {Message, Code}}` object. It gives a `Protocol` error that carries the trimmed body instead, because PHP's outcome depends on the decoded shape and the PHP version:
  - when the body does not decode, or decodes to a number, boolean, null or an array with no `error` entry, PHP reads offsets of null, which give null with a warning, and throws an `OutboundApiException` with message `""` and code 0;
  - when `error` holds a string, or the body is a JSON string, line 260 reads a string offset with a non-numeric key, which PHP 8 rejects at once and PHP 7 answers with a one-character string that the exception constructor then rejects as a code.
- `time()` is the system clock. It is the parameter `now`.
- Floats are kept as IEEE 754 bit patterns. Only whether a float is zero matters here. Their rendering in messages and in JSON is not modelled.
- Integers are unbounded. PHP's 64-bit integer overflow to float is not modelled.
- PHP's loose comparison in `in_array` and `==` for a platform that is not a string is left out, because its result depends on the PHP version. The platform is a string.
- PHP resources (for example an open file handle) have no `PhpValue`. As a user id, an event name or a token, a resource would fail the type checks, and the messages of lines 73, 108 and 163 would name the type `resource`.
- `is_callable` is modelled for closures only. Callable strings, callable arrays and invokable objects would need runtime function and class lookup, which is not modelled. Such strings count as strings, such arrays as arrays, and such objects as objects.
- The load-time check for the JSON extension is left out. The three exception classes and plain `Exception` become the `ErrorKind` of an `Error`.
- Outbound.Client.Init: takes a string key, so `init` with a non-string key (for example `null` or `0`) is not modelled.
- PHP's conversion of decimal-integer string keys to integer keys is not modelled, because every key the client looks up is a non-numeric string.
- Repeating a call with the same inputs gives the same request and result. This holds by construction, because every operation is a function of the stored configuration and its arguments.
